/**
 * The oldest front end (assets/js/script.js): events as name/value pair
 * lists, distinct sorted categories as buttons, and a click filter.
 */
module LegacyScript {
  import opened Wrappers
  import opened Text
  import opened LegacyCalendar

  /** One `{name, value}` pair of an upstream event. */
  datatype Pair = Pair(name: string, value: Option<string>)

  /** `find`: the value of the first pair with the name, undefined when there is none. */
  function Find(kvs: seq<Pair>, name: string): (r: Option<string>)
    ensures (forall i :: 0 <= i < |kvs| ==> kvs[i].name != name) ==> r == None
    ensures forall i :: 0 <= i < |kvs| && kvs[i].name == name && (forall j :: 0 <= j < i ==> kvs[j].name != name) ==>
      r == kvs[i].value
  {
    if kvs == [] then None
    else if kvs[0].name == name then kvs[0].value
    else
      var rest := kvs[1..];
      var r := Find(rest, name);
      assert forall i :: 0 <= i < |kvs| && kvs[i].name == name && (forall j :: 0 <= j < i ==> kvs[j].name != name) ==>
        r == kvs[i].value by {
        forall i | 0 <= i < |kvs| && kvs[i].name == name && (forall j :: 0 <= j < i ==> kvs[j].name != name)
          ensures r == kvs[i].value
        {
          assert rest[i - 1] == kvs[i];
          forall j | 0 <= j < i - 1 ensures rest[j].name != name {
            assert rest[j] == kvs[j + 1];
          }
        }
      }
      assert (forall i :: 0 <= i < |kvs| ==> kvs[i].name != name) ==> r == None by {
        if forall i :: 0 <= i < |kvs| ==> kvs[i].name != name {
          forall i | 0 <= i < |rest| ensures rest[i].name != name {
            assert rest[i] == kvs[i + 1];
          }
        }
      }
      r
  }

  lemma FindExamples()
    ensures Find([Pair("Event Name", Some("Sample Event"))], "Event Name") == Some("Sample Event")
    ensures Find([Pair("Event Name", Some("Sample Event"))], "Nonexistent") == None
  {
  }

  /** `formatEvent`: every field looked up by its name; the timestamps are the text given to `new Date`. */
  function FormatEvent(kvs: seq<Pair>): (e: Event)
    ensures e.id == Find(kvs, "Event ID") && e.title == Find(kvs, "Event Name")
    ensures e.startDate == Find(kvs, "Event Start Date") && e.endDate == Find(kvs, "Event End Date")
    ensures e.category == Find(kvs, "Event Category Name")
    ensures e.start == Shown(e.startDate) + "T" + Shown(Find(kvs, "Event Start Time"))
    ensures e.end == Shown(e.endDate) + "T" + Shown(Find(kvs, "Event End Time"))
  {
    var startDate := Find(kvs, "Event Start Date");
    var endDate := Find(kvs, "Event End Date");
    Event(Find(kvs, "Event ID"), Find(kvs, "Event Name"),
          Shown(startDate) + "T" + Shown(Find(kvs, "Event Start Time")),
          Shown(endDate) + "T" + Shown(Find(kvs, "Event End Time")),
          startDate, endDate, Find(kvs, "Event Category Name"))
  }

  function FormatEvents(events: seq<seq<Pair>>): (r: seq<Event>)
    ensures |r| == |events|
    ensures forall i :: 0 <= i < |events| ==> r[i] == FormatEvent(events[i])
  {
    seq(|events|, i requires 0 <= i < |events| => FormatEvent(events[i]))
  }

  /** A category that the spread in `getCategories` records: present and not the empty string. */
  predicate Truthy(category: Option<string>)
  {
    category.Some? && category.value != ""
  }

  function TruthyCategories(events: seq<Event>): (r: seq<string>)
    ensures forall c :: c in r <==> exists i :: 0 <= i < |events| && events[i].category == Some(c) && c != ""
  {
    if events == [] then []
    else
      var rest := TruthyCategories(events[1..]);
      assert forall i :: 1 <= i < |events| ==> events[i] == events[1..][i - 1];
      if Truthy(events[0].category) then [events[0].category.value] + rest else rest
  }

  /** `getCategories`: each truthy category once, in sorted order; "All" is added only by an event so named. */
  function GetCategories(events: seq<Event>): (r: seq<string>)
    ensures StrictlySorted(r)
    ensures forall c :: c in r <==> exists i :: 0 <= i < |events| && events[i].category == Some(c) && c != ""
  {
    SortedDistinct(TruthyCategories(events))
  }

  function WithCategory(category: Option<string>): Event
  {
    Event(None, None, "undefinedTundefined", "undefinedTundefined", None, None, category)
  }

  lemma GetCategoriesExample()
    ensures GetCategories([WithCategory(Some("Workshop")), WithCategory(Some("Seminar")),
                           WithCategory(Some("Workshop")), WithCategory(None), WithCategory(None)])
         == ["Seminar", "Workshop"]
  {
    var events := [WithCategory(Some("Workshop")), WithCategory(Some("Seminar")),
                   WithCategory(Some("Workshop")), WithCategory(None), WithCategory(None)];
    assert TruthyCategories(events[4..]) == [];
    assert TruthyCategories(events[3..]) == [];
    assert TruthyCategories(events[2..]) == ["Workshop"];
    assert TruthyCategories(events[1..]) == ["Seminar", "Workshop"];
    assert TruthyCategories(events) == ["Workshop", "Seminar", "Workshop"];
    assert Below("Seminar", "Workshop");
  }

  /** What a click lands on: one of the category buttons, or the bar around them. */
  datatype Target = Button(index: nat) | Bar

  /** The category bar and the calendar's added events, as the click handler updates them. */
  class CategoryBar {
    const events: seq<Event>
    const buttons: seq<string>
    /** The button carrying the `active` class, if any. */
    var activeButton: Option<nat>
    /**
     * Whether the bar itself carries `active`. The handler clears the class
     * only among the bar's descendants, so once set it stays.
     */
    var barActive: bool
    var calendarEvents: seq<Entry>
    /** Every entry removed from the calendar so far, in removal order. */
    ghost var removed: seq<Entry>

    /** The page after loading: one button per category, every event added. */
    constructor (events: seq<Event>)
      ensures this.events == events && buttons == GetCategories(events)
      ensures activeButton == None && !barActive
      ensures calendarEvents == Entries(events) && removed == []
    {
      this.events := events;
      buttons := GetCategories(events);
      activeButton := None;
      barActive := false;
      calendarEvents := Entries(events);
      removed := [];
    }

    /**
     * The click handler; `text` is the target's `innerText`, which is a
     * button's own label when a button is clicked.
     */
    method Click(target: Target, text: string)
      requires target.Button? ==> target.index < |buttons| && text == buttons[target.index]
      modifies this
      ensures target.Button? ==> activeButton == Some(target.index) && barActive == old(barActive)
      ensures target.Bar? ==> activeButton == None && barActive
      ensures removed == old(removed) + old(calendarEvents)
      ensures calendarEvents == Entries(Selected(events, text))
    {
      match target {
        case Button(index) =>
          activeButton := Some(index);
        case Bar =>
          activeButton := None;
          barActive := true;
      }
      ghost var button, bar := activeButton, barActive;
      var i := 0;
      while i < |calendarEvents|
        invariant 0 <= i <= |calendarEvents|
        invariant calendarEvents == old(calendarEvents)
        invariant activeButton == button && barActive == bar
        invariant removed == old(removed) + calendarEvents[..i]
      {
        removed := removed + [calendarEvents[i]];
        i := i + 1;
      }
      assert calendarEvents[..i] == calendarEvents;
      calendarEvents := Entries(Selected(events, text));
    }
  }

  /** A click on the bar, then on a button, leaves both marked active. */
  method BarStaysActive() returns (button: Option<nat>, bar: bool)
    ensures button == Some(0) && bar
  {
    var events := [WithCategory(Some("Workshop"))];
    assert TruthyCategories(events) == ["Workshop"];
    assert GetCategories(events) == ["Workshop"];
    var categories := new CategoryBar(events);
    categories.Click(Bar, "Workshop");
    categories.Click(Button(0), "Workshop");
    button, bar := categories.activeButton, categories.barActive;
  }

  /** A category button never empties the calendar: its category came from some event. */
  lemma ButtonShowsItsEvents(events: seq<Event>, index: nat)
    requires index < |GetCategories(events)|
    ensures var category := GetCategories(events)[index];
      exists i :: 0 <= i < |events| && events[i] in Selected(events, category) && events[i].category == Some(category)
  {
    var category := GetCategories(events)[index];
    assert category in GetCategories(events);
    var i :| 0 <= i < |events| && events[i].category == Some(category) && category != "";
    assert multiset(events)[events[i]] > 0;
    assert multiset(Selected(events, category))[events[i]] > 0;
  }
}
