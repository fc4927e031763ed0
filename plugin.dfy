/**
 * The month-calendar widget (assets/js/plugin.js): its reducer, its own
 * dispatcher, the projection of upstream events, the campaign list and the
 * decisions its view makes about which events to show and how.
 */
module CalendarWidget {
  import opened Wrappers
  import opened Text

  /** The container's data attributes that the widget reads. */
  datatype Options = Options(filterCampaigns: Option<string>, multiDayEvents: Option<string>)

  /** An event as the upstream sends it. */
  datatype RawEvent = RawEvent(
    id: string, name: string, campaignName: Option<string>,
    startDate: string, startTime: string, endDate: string, endTime: string)

  /** A projected event; `start` and `end` are the `date + "T" + time` strings the `Date`s are built from. */
  datatype Event = Event(
    campaignName: Option<string>, end: string, endDate: string,
    id: string, start: string, startDate: string, title: string)

  /**
   * The model. `calendarMounted`, `start` and `end` stand for keys that the
   * reducer adds after the initial model (`calendar`, `start`, `end`).
   */
  datatype Model = Model(
    events: seq<Event>, filter: string, loading: bool, options: Options,
    calendarMounted: bool, start: Option<string>, end: Option<string>)

  const InitialModel := Model([], "All", true, Options(None, None), false, None, None)

  function Timestamp(date: string, time: string): string
  {
    date + "T" + time
  }

  // ---------------------------------------------------------------------------
  // Projection

  /** `multi_day_events === "false"` collapses every event onto its start date. */
  predicate SingleDay(options: Options)
  {
    options.multiDayEvents == Some("false")
  }

  function FormatEvent(e: RawEvent, options: Options): Event
  {
    var endDate := if SingleDay(options) then e.startDate else e.endDate;
    Event(e.campaignName, Timestamp(endDate, e.endTime), endDate, e.id,
          Timestamp(e.startDate, e.startTime), e.startDate, e.name)
  }

  /** `formatEvents`: one projected event per upstream event, in the same order. */
  function FormatEvents(events: seq<RawEvent>, options: Options): (r: seq<Event>)
    ensures |r| == |events|
    ensures forall i :: 0 <= i < |events| ==>
      && r[i].id == events[i].id && r[i].title == events[i].name
      && r[i].startDate == events[i].startDate && r[i].campaignName == events[i].campaignName
      && r[i].endDate == (if SingleDay(options) then events[i].startDate else events[i].endDate)
      && r[i].start == Timestamp(events[i].startDate, events[i].startTime)
      && r[i].end == Timestamp(r[i].endDate, events[i].endTime)
  {
    seq(|events|, i requires 0 <= i < |events| => FormatEvent(events[i], options))
  }

  /**
   * Whether `reduce` records the name as an own key: empty names are falsy, and
   * assigning `camps["__proto__"]` sets the prototype instead of a key.
   */
  predicate RecordedName(name: Option<string>)
  {
    name.Some? && name.value != "" && name.value != "__proto__"
  }

  function RecordedNames(events: seq<Event>): (names: seq<string>)
    ensures forall n :: n in names <==> exists e :: e in events && RecordedName(e.campaignName) && e.campaignName.value == n
  {
    if events == [] then []
    else
      var rest := RecordedNames(events[1..]);
      assert forall e :: e in events <==> e == events[0] || e in events[1..] by {
        assert events == [events[0]] + events[1..];
      }
      if RecordedName(events[0].campaignName) then [events[0].campaignName.value] + rest else rest
  }

  /** `getCampaignNames`: "All", then each recorded campaign name once, in ascending order. */
  function CampaignNames(events: seq<Event>): (names: seq<string>)
    ensures |names| >= 1 && names[0] == "All"
    ensures StrictlySorted(names[1..])
    ensures forall n :: n in names[1..] <==>
      exists e :: e in events && RecordedName(e.campaignName) && e.campaignName.value == n
  {
    var sorted := SortedDistinct(RecordedNames(events));
    assert ([("All")] + sorted)[1..] == sorted;
    ["All"] + sorted
  }

  /** Events ["B", "A", "B", none] give ["All", "A", "B"]. */
  lemma CampaignNamesExample()
    ensures CampaignNames([Named("B"), Named("A"), Named("B"), Unnamed()]) == ["All", "A", "B"]
  {
    var events := [Named("B"), Named("A"), Named("B"), Unnamed()];
    assert RecordedNames(events) == ["B", "A", "B"];
    assert SortedDistinct(["B"]) == ["B"];
    assert SortedDistinct(["B"]) == ["B"];
    assert SortedDistinct(["A", "B"]) == ["A", "B"];
  }

  function Named(campaign: string): Event
  {
    Event(Some(campaign), "", "", "", "", "", "")
  }

  function Unnamed(): Event
  {
    Event(None, "", "", "", "", "", "")
  }

  // ---------------------------------------------------------------------------
  // The reducer

  datatype Msg =
    | OptionsSet(options: Options)
    | InitCalendar
    | DatesSet(startStr: string, endStr: string)
    | EventsFetched(events: seq<RawEvent>)
    | CampaignFilterChanged(filter: string)
    | OnEventClick(id: string)
    | Unhandled(kind: string)

  datatype Command = FetchEvents | OpenEvent(id: string)

  /** `update` returns a bare model, a `[model, command]` pair, or throws. */
  datatype Step = Bare(model: Model) | Pair(model: Model, command: Command) | Threw

  /**
   * The filter after a fetch, as written: reset to "All" when it IS among the
   * new names, so a filter naming no fetched campaign is the one that survives.
   */
  function FilterAfterFetch(filter: string, names: seq<string>): (r: string)
    ensures r == "All" <==> filter in names || filter == "All"
    ensures r != "All" ==> r == filter && filter !in names
  {
    if filter in names then "All" else filter
  }

  /** `update(msg, model)`: a bare model, a `[model, command]` pair, or a throw. */
  function Update(msg: Msg, model: Model): (step: Step)
    ensures step.Pair? <==> msg.DatesSet? || msg.OnEventClick?
    ensures !step.Threw? && !msg.EventsFetched? ==> step.model.events == model.events
    ensures !step.Threw? && !msg.EventsFetched? && !msg.CampaignFilterChanged? ==> step.model.filter == model.filter
    ensures msg.EventsFetched? ==> step.Bare? && step.model.events == FormatEvents(msg.events, model.options)
  {
    match msg
    case OptionsSet(options) => Bare(model.(options := options))
    case InitCalendar => Bare(model.(calendarMounted := true))
    case DatesSet(startStr, endStr) =>
      Pair(model.(end := Some(SliceTo(endStr, 10)), loading := true, start := Some(SliceTo(startStr, 10))),
           FetchEvents)
    case EventsFetched(raw) =>
      var events := FormatEvents(raw, model.options);
      Bare(model.(filter := FilterAfterFetch(model.filter, CampaignNames(events)), events := events, loading := false))
    case CampaignFilterChanged(filter) => Bare(model.(filter := filter))
    case OnEventClick(id) => Pair(model, OpenEvent(id))
    case Unhandled(_) => Threw
  }

  /**
   * A fetch replaces the events and stops loading; the filter becomes "All"
   * when it names a fetched campaign and is kept otherwise.
   */
  lemma EventsFetchedResetsFilter(model: Model, raw: seq<RawEvent>)
    ensures var step := Update(EventsFetched(raw), model);
      var events := FormatEvents(raw, model.options);
      && step.Bare?
      && step.model.events == events && !step.model.loading
      && step.model.filter == (if model.filter in CampaignNames(events) then "All" else model.filter)
      && step.model.options == model.options && step.model.calendarMounted == model.calendarMounted
  {
  }

  /** The visible window's first ten characters become `start` and `end`, loading starts and events are fetched. */
  lemma DatesSetStartsFetch(model: Model, startStr: string, endStr: string)
    requires |startStr| >= 10 && |endStr| >= 10
    ensures var step := Update(DatesSet(startStr, endStr), model);
      && step == Pair(model.(start := Some(startStr[..10]), end := Some(endStr[..10]), loading := true), FetchEvents)
  {
    assert SliceTo(startStr, 10) == startStr[..10];
    assert SliceTo(endStr, 10) == endStr[..10];
  }

  /** Filter changes and option changes touch one field and issue no command; a click changes nothing. */
  lemma LocalMessages(model: Model, filter: string, options: Options, id: string)
    ensures Update(CampaignFilterChanged(filter), model) == Bare(model.(filter := filter))
    ensures Update(OptionsSet(options), model) == Bare(model.(options := options))
    ensures Update(OnEventClick(id), model) == Pair(model, OpenEvent(id))
  {
  }

  lemma UpdateThrowsOnlyOnUnhandled(msg: Msg, model: Model)
    ensures Update(msg, model).Threw? <==> msg.Unhandled?
  {
  }

  // ---------------------------------------------------------------------------
  // The view's decisions

  /** `["All", event.campaignName].includes(filter)`. */
  predicate Visible(e: Event, filter: string)
  {
    filter == "All" || e.campaignName == Some(filter)
  }

  function ShownEvents(events: seq<Event>, filter: string): (r: seq<Event>)
    ensures forall e :: multiset(r)[e] == if Visible(e, filter) then multiset(events)[e] else 0
  {
    var keep := e => Visible(e, filter);
    FilterCounts(events, keep);
    Filter(events, keep)
  }

  /** What `addEvent` receives: the event plus `allDay`, true when the dates differ. */
  datatype CalendarEntry = CalendarEntry(event: Event, allDay: bool)

  function Entries(events: seq<Event>): (r: seq<CalendarEntry>)
    ensures |r| == |events|
    ensures forall i :: 0 <= i < |events| ==>
      r[i].event == events[i] && (r[i].allDay <==> events[i].startDate != events[i].endDate)
  {
    seq(|events|, i requires 0 <= i < |events| =>
      CalendarEntry(events[i], events[i].startDate != events[i].endDate))
  }

  datatype Radio = Radio(name: string, checked: bool)

  /** One render: the events handed to the calendar, the spinner, and the campaign radios if enabled. */
  datatype Screen = Screen(entries: seq<CalendarEntry>, loadingShown: bool, radios: Option<seq<Radio>>)

  /**
   * `view(model)`, or `None` where it throws: with no calendar mounted,
   * `model.calendar.addEvent` fails as soon as one event is to be shown.
   */
  function View(model: Model): (screen: Option<Screen>)
    ensures screen.None? <==> !model.calendarMounted && ShownEvents(model.events, model.filter) != []
    ensures screen.Some? ==>
      && screen.value.entries == Entries(ShownEvents(model.events, model.filter))
      && screen.value.loadingShown == model.loading
      && (screen.value.radios.Some? <==> model.options.filterCampaigns == Some("true"))
  {
    var shown := ShownEvents(model.events, model.filter);
    if !model.calendarMounted && shown != [] then None
    else
      var names := CampaignNames(model.events);
      var radios := seq(|names|, i requires 0 <= i < |names| => Radio(names[i], names[i] == model.filter));
      Some(Screen(Entries(shown), model.loading,
        if model.options.filterCampaigns == Some("true") then Some(radios) else None))
  }

  /** A campaign radio is checked exactly when its name is the filter; "All" comes first. */
  lemma RadiosFollowFilter(model: Model)
    requires View(model).Some? && View(model).value.radios.Some?
    ensures var radios := View(model).value.radios.value;
      && |radios| == |CampaignNames(model.events)|
      && radios[0].name == "All"
      && forall i :: 0 <= i < |radios| ==>
           radios[i].name == CampaignNames(model.events)[i] && (radios[i].checked <==> radios[i].name == model.filter)
  {
  }

  /** With multi-day events off, every fetched event is drawn as a timed, single-day event. */
  lemma SingleDayEventsAreNeverAllDay(raw: seq<RawEvent>, options: Options, entry: CalendarEntry, filter: string)
    requires SingleDay(options)
    requires entry in Entries(ShownEvents(FormatEvents(raw, options), filter))
    ensures !entry.allDay
  {
    var shown := ShownEvents(FormatEvents(raw, options), filter);
    var i :| 0 <= i < |shown| && Entries(shown)[i] == entry;
    assert shown[i] in multiset(shown);
    var formatted := FormatEvents(raw, options);
    assert shown[i] in multiset(formatted);
    var j :| 0 <= j < |formatted| && formatted[j] == shown[i];
  }

  // ---------------------------------------------------------------------------
  // The inverted filter reset

  /**
   * As written, a filter naming no fetched campaign survives the fetch, so
   * events for campaigns "A" and "B" under the filter "C" are all hidden; and
   * a filter that does name a fetched campaign is thrown away.
   */
  lemma FilterResetIsInverted()
    ensures var events := FormatEvents(TwoCampaigns(), InitialModel.options);
      var names := CampaignNames(events);
      && FilterAfterFetch("C", names) == "C" && |events| == 2
      && ShownEvents(events, FilterAfterFetch("C", names)) == []
      && FilterAfterFetch("A", names) == "All"
  {
    var events := FormatEvents(TwoCampaigns(), InitialModel.options);
    TwoCampaignNames();
    assert ShownEvents(events[1..], "C") == [];
  }

  /** Two upstream events, of campaigns "A" and "B". */
  function TwoCampaigns(): seq<RawEvent>
  {
    [Raw("A"), Raw("B")]
  }

  lemma TwoCampaignNames()
    ensures CampaignNames(FormatEvents(TwoCampaigns(), InitialModel.options)) == ["All", "A", "B"]
  {
    var events := FormatEvents(TwoCampaigns(), InitialModel.options);
    assert events[0].campaignName == Some("A") && events[1].campaignName == Some("B");
    assert events[1..][1..] == [];
    assert RecordedNames(events[1..]) == ["B"];
    assert RecordedNames(events) == ["A", "B"];
    assert SortedDistinct(["B"]) == ["B"];
    assert ["A", "B"][1..] == ["B"];
    assert SortedDistinct(["A", "B"]) == InsertDistinct("A", ["B"]);
  }

  function Raw(campaign: string): RawEvent
  {
    RawEvent("1", "Event", Some(campaign), "2025-08-30", "10:00", "2025-08-30", "11:00")
  }

  /** The intended reset: keep the filter while it names a fetched campaign, otherwise go back to "All". */
  function IntendedFilterAfterFetch(filter: string, names: seq<string>): (r: string)
    ensures r in names || r == "All"
    ensures filter in names ==> r == filter
  {
    if filter in names then filter else "All"
  }

  /**
   * With the intended reset, a fetch that brings any event never leaves the
   * calendar empty: the filter is "All" or names a campaign some event has.
   */
  lemma IntendedResetShowsEvents(events: seq<Event>, filter: string)
    requires events != []
    ensures ShownEvents(events, IntendedFilterAfterFetch(filter, CampaignNames(events))) != []
  {
    var names := CampaignNames(events);
    var f := IntendedFilterAfterFetch(filter, names);
    if f == "All" {
      assert events[0] in multiset(events);
      assert Visible(events[0], f);
    } else {
      assert f in names;
      var k :| 0 <= k < |names| && names[k] == f;
      assert f in names[1..] by { assert k != 0; assert names[1..][k - 1] == f; }
      var e :| e in events && RecordedName(e.campaignName) && e.campaignName.value == f;
      assert e in multiset(events);
      assert Visible(e, f);
    }
  }

  /** The reducer with the intended reset: it differs from `Update` only in the filter after a fetch. */
  function IntendedUpdate(msg: Msg, model: Model): (step: Step)
    ensures !msg.EventsFetched? ==> step == Update(msg, model)
    ensures msg.EventsFetched? ==>
      var events := FormatEvents(msg.events, model.options);
      step == Bare(Update(msg, model).model.(filter := IntendedFilterAfterFetch(model.filter, CampaignNames(events))))
  {
    match msg
    case EventsFetched(raw) =>
      var events := FormatEvents(raw, model.options);
      Bare(model.(filter := IntendedFilterAfterFetch(model.filter, CampaignNames(events)), events := events, loading := false))
    case _ => Update(msg, model)
  }

  /** With the intended reset, a fetch that brings any event leaves at least one of them on the calendar. */
  lemma FetchNeverEmptiesCalendar(model: Model, raw: seq<RawEvent>)
    requires raw != []
    ensures var next := IntendedUpdate(EventsFetched(raw), model).model;
      ShownEvents(next.events, next.filter) != []
  {
    IntendedResetShowsEvents(FormatEvents(raw, model.options), model.filter);
  }

  // ---------------------------------------------------------------------------
  // The widget's own dispatcher

  /** One call from `dispatch` into the outside world. */
  datatype Effect = Ran(command: Command, model: Model) | Painted(screen: Screen)

  /** How a dispatch ended: normally, or by a throw from `update` or from `view`. */
  datatype Outcome = Done | UpdateThrew | ViewThrew

  /**
   * The page-level `dispatch`: `currentModel` is reassigned to what `update`
   * returns; a pair is split and its command invoked on a copy of the new
   * model; then the view runs. Effects are recorded in `trace`, not executed.
   */
  class App {
    var current: Model
    ghost var trace: seq<Effect>

    constructor ()
      ensures current == InitialModel && trace == []
    {
      current := InitialModel;
      trace := [];
    }

    method Dispatch(msg: Msg) returns (outcome: Outcome)
      modifies this
      ensures Update(msg, old(current)).Threw? ==>
        outcome == UpdateThrew && current == old(current) && trace == old(trace)
      ensures Update(msg, old(current)).Bare? || Update(msg, old(current)).Pair? ==>
        var step := Update(msg, old(current));
        var commands := if step.Pair? then [Ran(step.command, step.model)] else [];
        && current == step.model
        && (View(step.model).None? ==> outcome == ViewThrew && trace == old(trace) + commands)
        && (View(step.model).Some? ==>
              outcome == Done && trace == old(trace) + commands + [Painted(View(step.model).value)])
    {
      var step := Update(msg, current);
      if step.Threw? {
        return UpdateThrew;
      }
      current := step.model;
      if step.Pair? {
        trace := trace + [Ran(step.command, current)];
      }
      var screen := View(current);
      if screen.None? {
        return ViewThrew;
      }
      trace := trace + [Painted(screen.value)];
      outcome := Done;
    }

    /** `init`: set the options, then mount the calendar. */
    method Init(options: Options) returns (outcome: Outcome)
      requires current == InitialModel
      modifies this
      ensures outcome == Done
      ensures current == InitialModel.(options := options, calendarMounted := true)
    {
      outcome := Dispatch(OptionsSet(options));
      outcome := Dispatch(InitCalendar);
    }
  }
}
