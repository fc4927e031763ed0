/**
 * The paginated, direction-reversible event list (assets/js/list.js): its
 * model, the closed message set, the reducer `update`, the commands it names,
 * the page arithmetic of the two-step past-events protocol, the direction
 * toggle's click handler and the decisions the view makes.
 */
module ListWidget {
  import opened Wrappers
  import opened Text
  import Tea

  datatype Direction = Future | Past

  /** `error` is `false` until a fetch fails; then it holds the failure's message. */
  datatype ErrorState = NoError | Failed(message: string)

  /** The container's data attributes that the widget reads. */
  datatype Options = Options(campaign: Option<string>, restUrl: Option<string>, orgId: Option<string>)

  /** An upstream event; timestamps are kept as the upstream's date and time strings. */
  datatype Event = Event(id: string, name: string, campaignName: Option<string>, startDate: string, startTime: string)

  datatype Model = Model(
    direction: Direction,
    error: ErrorState,
    events: seq<Event>,
    loading: bool,
    options: Options,
    totalPages: int)

  const InitialModel := Model(Future, NoError, [], true, Options(None, None, None), 0)

  /** The model's top-level keys, in `Object.keys` order. */
  function Keys(m: Model): seq<string>
  {
    ["direction", "error", "events", "loading", "options", "totalPages"]
  }

  datatype Msg =
    | Init(options: Options)
    | EventsFetchStart
    | EventsFetched(events: seq<Event>, totalPages: int)
    | EventsFetchError(error: string)
    | DirectionChangePast
    | DirectionChangeFuture
    | TotalPagesFetched(totalPages: int)
    | Unhandled(kind: string)

  /** The named commands; `totalPages` is absent (`undefined`) unless the caller passed it. */
  datatype Command =
    | FetchEvents(direction: Direction, restUrl: Option<string>, totalPages: Option<int>)
    | GetTotalPages(restUrl: Option<string>)
    | NoCommand
  {
    function Name(): string
    {
      match this
      case FetchEvents(_, _, _) => "FETCH_EVENTS"
      case GetTotalPages(_) => "GET_TOTAL_PAGES"
      case NoCommand => "NONE"
    }
  }

  datatype Step = Next(model: Model, command: Command) | Threw

  // ---------------------------------------------------------------------------
  // Filtering and ordering fetched events

  function StartDate(e: Event): string { e.startDate }

  /**
   * `new RegExp(campaign, "i").test(campaignName)`, with the campaign read as
   * plain text: an absent campaign is the empty pattern, and an absent
   * campaign name is tested as the text "undefined".
   */
  predicate MatchesCampaign(campaign: Option<string>, e: Event)
    ensures MatchesCampaign(campaign, e) <==> OccursIgnoringCase(campaign.GetOr(""), e.campaignName.GetOr("undefined"))
    ensures campaign.None? ==> MatchesCampaign(campaign, e)
  {
    assert MatchesAt("", e.campaignName.GetOr("undefined"), 0);
    ContainsIgnoringCase(campaign.GetOr(""), e.campaignName.GetOr("undefined"))
  }

  /** The events matching the campaign, in their original order. */
  function KeepMatching(campaign: Option<string>, events: seq<Event>): (r: seq<Event>)
    ensures forall e :: multiset(r)[e] == if MatchesCampaign(campaign, e) then multiset(events)[e] else 0
  {
    var keep := e => MatchesCampaign(campaign, e);
    FilterCounts(events, keep);
    Filter(events, keep)
  }

  /** `filterAndSortEvents`: keep the campaign's events, ascending by start date, reversed for Past. */
  function FilterAndSort(campaign: Option<string>, events: seq<Event>, direction: Direction): (r: seq<Event>)
    ensures forall e :: multiset(r)[e] == if MatchesCampaign(campaign, e) then multiset(events)[e] else 0
    ensures direction == Future ==> SortedByKey(r, StartDate)
    ensures direction == Past ==> forall i, j :: 0 <= i < j < |r| ==> Below(r[j].startDate, r[i].startDate)
    ensures direction == Future ==> forall day ::
      WithKey(r, StartDate, day) == WithKey(KeepMatching(campaign, events), StartDate, day)
    ensures direction == Past ==> forall day ::
      WithKey(r, StartDate, day) == Reversed(WithKey(KeepMatching(campaign, events), StartDate, day))
  {
    var sorted := SortByKey(KeepMatching(campaign, events), StartDate);
    if direction == Past then
      assert forall day :: WithKey(Reversed(sorted), StartDate, day) == Reversed(WithKey(sorted, StartDate, day)) by {
        forall day ensures WithKey(Reversed(sorted), StartDate, day) == Reversed(WithKey(sorted, StartDate, day)) {
          FilterReversed(sorted, HasKey(StartDate, day));
        }
      }
      Reversed(sorted)
    else
      sorted
  }

  /** Two matching events on the same day are listed in fetch order for Future and the other way round for Past. */
  lemma SameDayEventsKeepFetchOrder(a: Event, b: Event)
    requires a.startDate == b.startDate
    ensures FilterAndSort(None, [a, b], Future) == [a, b]
    ensures FilterAndSort(None, [a, b], Past) == [b, a]
  {
    assert [a, b][1..] == [b] && [b][1..] == [];
    assert KeepMatching(None, [a, b]) == [a, b];
    BelowReflexive(a.startDate);
    assert SortByKey([a, b], StartDate) == [a, b];
  }

  /** The Past list is the Future list read backwards. */
  lemma PastIsFutureReversed(campaign: Option<string>, events: seq<Event>)
    ensures FilterAndSort(campaign, events, Past) == Reversed(FilterAndSort(campaign, events, Future))
  {
  }

  // ---------------------------------------------------------------------------
  // The reducer

  /**
   * `update(msg, model)`: the next model and command, or a throw for an
   * unhandled message. Every fetch it asks for goes to the configured URL and
   * in the direction the new model records.
   */
  function Update(msg: Msg, model: Model): (step: Step)
    ensures step.Next? && step.command.FetchEvents? ==>
      step.command.restUrl == step.model.options.restUrl && step.command.direction == step.model.direction
    ensures step.Next? && step.command.GetTotalPages? ==>
      step.command.restUrl == step.model.options.restUrl && step.model.direction == Past
    ensures step.Next? && step.model.options != model.options ==> msg.Init?
  {
    match msg
    case Init(options) =>
      Next(model.(options := options), FetchEvents(model.direction, options.restUrl, None))
    case EventsFetchStart =>
      Next(model.(error := NoError, events := [], loading := true), NoCommand)
    case EventsFetched(events, totalPages) =>
      var filtered := FilterAndSort(model.options.campaign, events, model.direction);
      Next(model.(error := NoError, events := filtered, loading := false, totalPages := totalPages), NoCommand)
    case EventsFetchError(error) =>
      Next(model.(error := Failed(error), events := [], loading := false), NoCommand)
    case DirectionChangePast =>
      Next(model.(direction := Past, error := NoError, events := [], loading := true),
           GetTotalPages(model.options.restUrl))
    case DirectionChangeFuture =>
      Next(model.(direction := Future, error := NoError, events := [], loading := true),
           FetchEvents(Future, model.options.restUrl, None))
    case TotalPagesFetched(totalPages) =>
      Next(model.(totalPages := totalPages),
           FetchEvents(model.direction, model.options.restUrl, Some(totalPages)))
    case Unhandled(_) =>
      Threw
  }

  /** Exactly the messages outside the closed set throw. */
  lemma UpdateThrowsOnlyOnUnhandled(msg: Msg, model: Model)
    ensures Update(msg, model).Threw? <==> msg.Unhandled?
  {
  }

  /** Every model `update` returns passes the runtime's shape check against the initial model. */
  lemma UpdatePassesShapeCheck(msg: Msg, model: Model)
    requires Update(msg, model).Next?
    ensures Tea.AddedKeys(Keys(Update(msg, model).model), Keys(InitialModel)) == []
  {
    var ks := Keys(InitialModel);
    assert forall k :: k in ks ==> k !in Tea.AddedKeys(ks, ks);
  }

  /**
   * A fetched page replaces the events with the campaign's events in direction
   * order, clears the error and the loading flag and records the page count.
   */
  lemma FetchedEventsReplaceList(model: Model, events: seq<Event>, totalPages: int, e: Event)
    ensures var next := Update(EventsFetched(events, totalPages), model);
      && next == Next(model.(error := NoError, events := next.model.events, loading := false, totalPages := totalPages), NoCommand)
      && multiset(next.model.events)[e] == (if MatchesCampaign(model.options.campaign, e) then multiset(events)[e] else 0)
  {
  }

  /** A failed fetch empties the list, stops loading and keeps the failure's message. */
  lemma FetchErrorClearsList(model: Model, error: string)
    ensures Update(EventsFetchError(error), model)
         == Next(model.(error := Failed(error), events := [], loading := false), NoCommand)
  {
  }

  /** INIT stores the options and fetches the first page from the new REST URL in the current direction. */
  lemma InitFetchesFirstPage(model: Model, options: Options)
    ensures Update(Init(options), model)
         == Next(model.(options := options), FetchEvents(model.direction, options.restUrl, None))
  {
  }

  /** EVENTS_FETCH_START clears the error and the list and shows the spinner, with no command. */
  lemma FetchStartClearsList(model: Model)
    ensures Update(EventsFetchStart, model)
         == Next(model.(error := NoError, events := [], loading := true), NoCommand)
  {
  }

  /** TOTAL_PAGES_FETCHED records the count and fetches that page in the current direction. */
  lemma TotalPagesFetchedFetchesPage(model: Model, totalPages: int)
    ensures Update(TotalPagesFetched(totalPages), model)
         == Next(model.(totalPages := totalPages), FetchEvents(model.direction, model.options.restUrl, Some(totalPages)))
  {
  }

  /** Both direction changes clear the list and start loading; only Past asks for the page count first. */
  lemma DirectionChanges(model: Model)
    ensures var past := Update(DirectionChangePast, model);
      && past.model == model.(direction := Past, error := NoError, events := [], loading := true)
      && past.command == GetTotalPages(model.options.restUrl)
    ensures var future := Update(DirectionChangeFuture, model);
      && future.model == model.(direction := Future, error := NoError, events := [], loading := true)
      && future.command == FetchEvents(Future, model.options.restUrl, None)
  {
  }

  // ---------------------------------------------------------------------------
  // Commands: requests and the messages their responses dispatch

  const MaxPageSize := 200

  /** `Math.ceil(totalResults / MAX_PAGE_SIZE)`. */
  function TotalPages(totalResults: int): (pages: int)
    ensures MaxPageSize * (pages - 1) < totalResults <= MaxPageSize * pages
  {
    (totalResults + MaxPageSize - 1) / MaxPageSize
  }

  /** `totalPages - 1`; with `totalPages` absent the request carries `NaN`, which `None` stands for. */
  function LastPage(totalPages: Option<int>): (page: Option<int>)
    ensures page.Some? <==> totalPages.Some?
    ensures totalPages.Some? ==> page.value + 1 == totalPages.value
  {
    match totalPages
    case Some(n) => Some(n - 1)
    case None => None
  }

  /** The query `fetchEvents` sends to `${rest_url}/neon/events`; the dates come from the clock. */
  datatype EventsQuery =
    | FromDate(start: string)
    | UntilDate(end: string, currentPage: Option<int>)

  function EventsRequest(direction: Direction, totalPages: Option<int>, today: string, yesterday: string): (q: EventsQuery)
    ensures direction == Future ==> q == FromDate(today)
    ensures direction == Past ==> q.UntilDate? && q.end == yesterday && q.currentPage == LastPage(totalPages)
  {
    match direction
    case Future => FromDate(today)
    case Past => UntilDate(yesterday, LastPage(totalPages))
  }

  /** The query `getTotalPages` sends: results up to today, one per page, so the count comes back alone. */
  datatype CountQuery = CountQuery(end: string, pageSize: int)

  function CountRequest(today: string): (q: CountQuery)
    ensures q.end == today && q.pageSize == 1
  {
    CountQuery(today, 1)
  }

  /** What the upstream answered to `fetchEvents`: a page, or an error (network, JSON or shape). */
  datatype EventsResponse = EventsPage(events: seq<Event>, totalPages: int) | EventsFailure(message: string)

  /** What the upstream answered to `getTotalPages`. */
  datatype CountResponse = ResultCount(totalResults: int) | CountFailure(message: string)

  /** The messages `fetchEvents` dispatches: the start marker at once, then the outcome. */
  function FetchEventsDispatches(response: EventsResponse): (msgs: seq<Msg>)
    ensures |msgs| == 2 && msgs[0] == EventsFetchStart
    ensures response.EventsPage? ==> msgs[1] == EventsFetched(response.events, response.totalPages)
    ensures response.EventsFailure? ==> msgs[1] == EventsFetchError(response.message)
  {
    match response
    case EventsPage(events, totalPages) => [EventsFetchStart, EventsFetched(events, totalPages)]
    case EventsFailure(message) => [EventsFetchStart, EventsFetchError(message)]
  }

  /** The message `getTotalPages` dispatches. */
  function GetTotalPagesDispatches(response: CountResponse): (msg: Msg)
    ensures msg.TotalPagesFetched? <==> response.ResultCount?
    ensures response.ResultCount? ==>
      MaxPageSize * (msg.totalPages - 1) < response.totalResults <= MaxPageSize * msg.totalPages
    ensures response.CountFailure? ==> msg == EventsFetchError(response.message)
  {
    match response
    case ResultCount(n) => TotalPagesFetched(TotalPages(n))
    case CountFailure(message) => EventsFetchError(message)
  }

  /**
   * The two-step protocol for past events: the direction change asks for the
   * count of results up to today, the count's page total is stored, and the
   * fetch that follows asks for the last page, `totalPages - 1`, of the events
   * up to yesterday: the two requests use different windows.
   */
  lemma PastEventsProtocol(model: Model, totalResults: int, today: string, yesterday: string)
    ensures var afterChange := Update(DirectionChangePast, model);
      var counted := GetTotalPagesDispatches(ResultCount(totalResults));
      var afterCount := Update(counted, afterChange.model);
      && afterChange.command == GetTotalPages(model.options.restUrl)
      && afterCount.model.direction == Past
      && afterCount.model.totalPages == TotalPages(totalResults)
      && afterCount.command == FetchEvents(Past, model.options.restUrl, Some(TotalPages(totalResults)))
      && CountRequest(today).end == today && CountRequest(today).pageSize == 1
      && EventsRequest(Past, afterCount.command.totalPages, today, yesterday)
         == UntilDate(yesterday, Some(TotalPages(totalResults) - 1))
  {
  }

  /** 401 results make 3 pages and the last one is page 2; no results make page -1, unguarded. */
  lemma PageArithmeticExamples()
    ensures TotalPages(401) == 3 && LastPage(Some(TotalPages(401))) == Some(2)
    ensures TotalPages(400) == 2 && TotalPages(1) == 1
    ensures TotalPages(0) == 0 && LastPage(Some(TotalPages(0))) == Some(-1)
  {
  }

  // ---------------------------------------------------------------------------
  // The direction toggle subscription

  function DirectionLabel(d: Direction): string
  {
    match d
    case Future => "Future"
    case Past => "Past"
  }

  /**
   * The click handler: `dataDirection` is the `data-direction` of the closest
   * ancestor carrying one, absent when there is none.
   */
  function ToggleMessage(dataDirection: Option<string>): (msg: Option<Msg>)
    ensures dataDirection.None? ==> msg.None?
    ensures dataDirection == Some("Past") ==> msg == Some(DirectionChangePast)
    ensures dataDirection.Some? && dataDirection.value != "Past" ==> msg == Some(DirectionChangeFuture)
  {
    match dataDirection
    case None => None
    case Some(d) => if d == "Past" then Some(DirectionChangePast) else Some(DirectionChangeFuture)
  }

  // ---------------------------------------------------------------------------
  // The view's decisions

  /** JavaScript truthiness of `error`: a message counts only when it is not empty. */
  predicate ErrorShown(e: ErrorState)
  {
    e.Failed? && e.message != ""
  }

  /** The event's page on the organisation's NeonCRM site; an absent org id is spelt "undefined" in both places. */
  function EventUrl(orgId: Option<string>, id: string): (url: string)
    ensures var org := orgId.GetOr("undefined");
      && "https://" + org + ".app.neoncrm.com/np/clients/" + org <= url
      && |url| >= |id| + 17 && url[|url| - |id| - 17..] == "/event.jsp?event=" + id
  {
    var org := orgId.GetOr("undefined");
    var head := "https://" + org + ".app.neoncrm.com/np/clients/" + org;
    assert (head + ("/event.jsp?event=" + id))[|head|..] == "/event.jsp?event=" + id;
    assert head + "/event.jsp?event=" + id == head + ("/event.jsp?event=" + id);
    head + "/event.jsp?event=" + id
  }

  datatype Row = Row(url: string, campaign: string, name: string)

  /** What one render shows: the header and its toggle, the banner, the notice, the rows, the spinner. */
  datatype Screen = Screen(
    heading: Direction,
    toggleTo: Direction,
    errorBanner: bool,
    noEventsNotice: bool,
    rows: seq<Row>,
    loadingIndicator: bool)

  function Flip(d: Direction): Direction
  {
    if d == Past then Future else Past
  }

  function Render(model: Model): (s: Screen)
    ensures s.heading == model.direction && s.toggleTo != model.direction
    ensures s.errorBanner <==> ErrorShown(model.error)
    ensures s.noEventsNotice <==> !model.loading && !ErrorShown(model.error) && model.events == []
    ensures s.loadingIndicator <==> model.loading
    ensures |s.rows| == |model.events|
    ensures forall i :: 0 <= i < |model.events| ==>
      s.rows[i].url == EventUrl(model.options.orgId, model.events[i].id) && s.rows[i].name == model.events[i].name
  {
    var rows := seq(|model.events|, i requires 0 <= i < |model.events| =>
      Row(EventUrl(model.options.orgId, model.events[i].id),
          model.events[i].campaignName.GetOr("undefined"),
          model.events[i].name));
    Screen(model.direction, Flip(model.direction), ErrorShown(model.error),
           !model.loading && !ErrorShown(model.error) && |model.events| == 0,
           rows, model.loading)
  }

  /** Clicking the rendered toggle switches the list to the other direction. */
  lemma ToggleSwitchesDirection(model: Model)
    ensures var msg := ToggleMessage(Some(DirectionLabel(Render(model).toggleTo)));
      && msg.Some?
      && Update(msg.value, model).Next?
      && Update(msg.value, model).model.direction == Flip(model.direction)
  {
  }

  // ---------------------------------------------------------------------------
  // The list widget as the runtime sees it

  function TeaUpdate(msg: Msg, m: Tea.Model<Model>): Tea.Step<Model>
  {
    match Update(msg, m.payload)
    case Next(next, command) => Tea.Next(Tea.Model(Keys(next), next), Tea.Command(command.Name()))
    case Threw => Tea.Threw
  }

  /** Under the runtime, the list widget never trips the shape check: it throws only on unhandled messages. */
  lemma NeverAddsKeys(msg: Msg, m: Tea.Model<Model>)
    ensures TeaUpdate(msg, m).Threw? <==> msg.Unhandled?
    ensures TeaUpdate(msg, m).Next? ==>
      Tea.AddedKeys(TeaUpdate(msg, m).model.keys, Keys(InitialModel)) == []
  {
    if Update(msg, m.payload).Next? {
      UpdatePassesShapeCheck(msg, m.payload);
    }
  }
}
