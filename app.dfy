/** The weather app's component (src/App.jsx): the search flow that turns a place picked
    in the autocomplete box into a weather request, the handling of the response, and the
    choice of what the page shows.

    Each event handler runs as one sequential step. React applies a handler's setter calls
    in the order they were made, and every setter here is given a plain value, so the state
    after a handler is what the calls write, the last write to a field winning. The
    asynchronous `fetch` is split in two: the handler that starts it yields a
    `WeatherRequest`, and `ReceiveWeather` is the `.then`/`.catch` continuation that runs
    when its outcome arrives, at any later time. */
module App {
  import opened Js
  import Clock
  import FontSize

  // ----- Data -----

  /** One entry of a Google place's `address_components`. */
  datatype AddressComponent = AddressComponent(longName: string, types: seq<string>)

  datatype LatLng = LatLng(lat: real, lng: real)

  /** What `autocomplete.getPlace()` returns: the place's name, its geometry when Google
      resolved one, and its address components. */
  datatype Place = Place(name: string, geometry: Option<LatLng>, addressComponents: seq<AddressComponent>)

  /** The `cod` member of a weather response: a string, a number or absent. */
  datatype Cod = CodText(text: string) | CodNumber(number: int) | NoCod

  /** The readings the weather pane formats: the response's `dt`, `sys.sunrise`,
      `sys.sunset` and `timezone`, in seconds. */
  datatype Report = Report(dt: int, sunrise: int, sunset: int, timezone: int)

  /** A parsed weather response. `report` is present exactly when the response has a
      `main` member; `{}` is the response with nothing in it. */
  datatype WeatherData = WeatherData(cod: Cod, name: Option<string>, report: Option<Report>)

  const EmptyObject: WeatherData := WeatherData(NoCod, None, None)

  /** How a weather request ends: with a parsed response, or with a rejected promise. */
  datatype FetchOutcome = Received(data: WeatherData) | Failed

  /** A request started by `fetchWeatherData(lat, lon, locationName)`. `seenName` is the
      `weather.name` the handler that started it could see; the continuation compares
      the new name with it. */
  datatype WeatherRequest = WeatherRequest(lat: real, lon: real, locationName: string, seenName: Option<string>)

  /** The component's state: its `useState` fields, the `lastSearched` entry of
      `sessionStorage`, and whether the autocomplete widget has loaded. */
  datatype Ui = Ui(
    location: string,
    state: string,
    country: string,
    weather: WeatherData,
    loading: bool,
    error: Option<string>,
    input: string,
    lastSearched: string,
    stored: Option<string>,
    autocompleteLoaded: bool)

  /** A handler's new state and the request it started, if any. */
  datatype Step = Step(ui: Ui, request: Option<WeatherRequest>)

  const NotInitialized: string := "Autocomplete not initialized"
  const LocationNotFound: string := "Location was not found!"
  const FetchFailed: string := "An error occurred while fetching weather data"

  // ----- Helpers -----

  /** `components.find(c => c.types.includes(type))?.long_name`, or `""` when no
      component has that type. */
  function GetAddressComponent(components: seq<AddressComponent>, kind: string): (r: string)
    ensures (forall i :: 0 <= i < |components| ==> kind !in components[i].types) ==> r == ""
    ensures forall i :: (0 <= i < |components| && kind in components[i].types &&
                         forall j :: 0 <= j < i ==> kind !in components[j].types)
                        ==> r == components[i].longName
  {
    if components == [] then ""
    else if kind in components[0].types then components[0].longName
    else GetAddressComponent(components[1..], kind)
  }

  /** The sizes App.jsx's own heuristic chooses from. */
  const InlineSmolSize: nat := 24
  const InlineMidSize: nat := 36
  const InlineMaxSize: nat := 48

  /** The font-size heuristic App.jsx defines for itself: up to 10 code units 48px,
      up to 18 36px, beyond that 24px. */
  function InlineFontSize(str: string): (r: string)
    ensures Utf16Length(str) <= 10 ==> r == "48px"
    ensures 10 < Utf16Length(str) <= 18 ==> r == "36px"
    ensures 18 < Utf16Length(str) ==> r == "24px"
  {
    var length := Utf16Length(str);
    if length <= 10 then FontSize.Px(InlineMaxSize)
    else if length <= 18 then FontSize.Px(InlineMidSize)
    else FontSize.Px(InlineSmolSize)
  }

  /** The inline heuristic gives 48px for "Koło", the value src/getDynamicFontSize.test.js
      expects. */
  lemma InlineFontSizeExampleKolo()
    ensures InlineFontSize("Koło") == "48px"
  {
    assert Utf16Length("Koło") == 4 by { BmpLength("Koło"); }
  }

  /** The two heuristics disagree exactly on names of up to 10 code units (48px against
      44px or 36px) and on names of 16 to 18 (36px against 24px). */
  lemma FontSizeVariantsDisagree(str: string)
    ensures InlineFontSize(str) != FontSize.GetDynamicFontSize(str) <==>
      Utf16Length(str) <= 10 || 16 <= Utf16Length(str) <= 18
  {
  }

  /** A longer name never gets a larger size from the inline heuristic either. */
  lemma InlineFontSizeMonotone(a: string, b: string)
    requires Utf16Length(a) <= Utf16Length(b)
    ensures FontSize.PxValue(InlineFontSize(b)) <= FontSize.PxValue(InlineFontSize(a))
  {
    if Utf16Length(a) <= 10 {
      assert InlineFontSize(a) == FontSize.Px(48);
      assert InlineFontSize(b) in {FontSize.Px(48), FontSize.Px(36), FontSize.Px(24)};
    } else if Utf16Length(a) <= 18 {
      assert InlineFontSize(a) == FontSize.Px(36);
      assert InlineFontSize(b) in {FontSize.Px(36), FontSize.Px(24)};
    } else {
      assert InlineFontSize(a) == FontSize.Px(24) && InlineFontSize(b) == FontSize.Px(24);
    }
  }

  /** `sessionStorage.getItem("lastSearched") || ""`. */
  function StoredOrEmpty(stored: Option<string>): (r: string)
    ensures stored.Some? && stored.value != "" ==> r == stored.value
    ensures r != "" ==> stored == Some(r)
  {
    if stored.Some? then stored.value else ""
  }

  /** A JavaScript truthiness test of `error`: null and the empty string are falsy. */
  predicate IsTruthy(error: Option<string>)
    ensures IsTruthy(error) ==> error.Some? && |error.value| > 0
  {
    error.Some? && error.value != ""
  }

  // ----- State transitions -----

  /** The state of a freshly mounted component. */
  function Initial(stored: Option<string>): (u: Ui)
    ensures !u.loading && u.error == None && u.weather == EmptyObject
    ensures u.location == "" && u.state == "" && u.country == "" && u.input == ""
    ensures !u.autocompleteLoaded
    ensures u.lastSearched == StoredOrEmpty(stored) && u.stored == stored
  {
    Ui("", "", "", EmptyObject, false, None, "", StoredOrEmpty(stored), stored, false)
  }

  /** `processLocation`: clear the page and show the spinner, then start a request for
      the autocomplete's place, or stop with an error when there is no widget or the
      place has no geometry. */
  function Searched(u: Ui, place: Option<Place>): (s: Step)
    ensures s.ui.location == "" && s.ui.weather == EmptyObject
    ensures s.ui.lastSearched == u.lastSearched && s.ui.stored == u.stored
    ensures s.ui.autocompleteLoaded == u.autocompleteLoaded
    ensures s.request.Some? <==> u.autocompleteLoaded && place.Some? && place.value.geometry.Some?
    ensures s.request.Some? ==>
      s.ui.loading && s.ui.error == None && s.ui.input == "" &&
      s.ui.country == GetAddressComponent(place.value.addressComponents, "country") &&
      s.ui.state == GetAddressComponent(place.value.addressComponents, "administrative_area_level_1") &&
      s.request.value == WeatherRequest(place.value.geometry.value.lat, place.value.geometry.value.lng,
                                        place.value.name, u.weather.name)
    ensures s.request.None? ==>
      !s.ui.loading && s.ui.input == u.input && s.ui.state == "" && s.ui.country == "" &&
      s.ui.error == Some(if u.autocompleteLoaded then LocationNotFound else NotInitialized)
  {
    var cleared := u.(loading := true, error := None, weather := EmptyObject,
                      location := "", state := "", country := "");
    if !u.autocompleteLoaded then
      Step(cleared.(error := Some(NotInitialized), loading := false), None)
    else if place.Some? && place.value.geometry.Some? then
      var p := place.value;
      Step(cleared.(input := "",
                    country := GetAddressComponent(p.addressComponents, "country"),
                    state := GetAddressComponent(p.addressComponents, "administrative_area_level_1")),
           Some(WeatherRequest(p.geometry.value.lat, p.geometry.value.lng, p.name, u.weather.name)))
    else
      Step(cleared.(error := Some(LocationNotFound), loading := false), None)
  }

  /** `handlePlaceChanged` of a render whose `weather.name` was `seenName`: for a place
      with geometry, show its name, state and country at once and start a request for its
      coordinates; otherwise do nothing. The loading flag, the error and the weather are
      left as they are. */
  function PlaceChanged(u: Ui, place: Option<Place>, seenName: Option<string>): (s: Step)
    requires u.autocompleteLoaded
    ensures s.request.Some? <==> place.Some? && place.value.geometry.Some?
    ensures s.request.None? ==> s.ui == u
    ensures s.request.Some? ==>
      s.ui == u.(location := place.value.name,
                 country := GetAddressComponent(place.value.addressComponents, "country"),
                 state := GetAddressComponent(place.value.addressComponents, "administrative_area_level_1")) &&
      s.request.value == WeatherRequest(place.value.geometry.value.lat, place.value.geometry.value.lng,
                                        place.value.name, seenName)
  {
    if place.Some? && place.value.geometry.Some? then
      var p := place.value;
      Step(u.(location := p.name,
              country := GetAddressComponent(p.addressComponents, "country"),
              state := GetAddressComponent(p.addressComponents, "administrative_area_level_1")),
           Some(WeatherRequest(p.geometry.value.lat, p.geometry.value.lng, p.name, seenName)))
    else
      Step(u, None)
  }

  /** The widget's `place_changed` event. Its listener is registered once, by the effect
      that runs in the render where the widget has just loaded. No request can have started
      before then (both `processLocation` and `handlePlaceChanged` need the widget), so the
      weather that render sees is still `{}`, whose `name` is undefined: every request the
      listener starts is compared with no name. */
  function PlaceSelected(u: Ui, place: Option<Place>): (s: Step)
    requires u.autocompleteLoaded
    ensures s == PlaceChanged(u, place, EmptyObject.name)
    ensures s.request.Some? ==> s.request.value.seenName == None
  {
    PlaceChanged(u, place, EmptyObject.name)
  }

  /** `handleKeyDown`, as written: Enter runs the current render's `handlePlaceChanged` once
      the widget has loaded; any other key, or Enter before that, changes nothing. No
      element of the page has it as its key handler, so Enter in the input box submits the
      form, which runs `processLocation`. */
  function KeyPressed(u: Ui, key: string, place: Option<Place>): (s: Step)
    ensures key != "Enter" || !u.autocompleteLoaded ==> s == Step(u, None)
    ensures key == "Enter" && u.autocompleteLoaded ==> s == PlaceChanged(u, place, u.weather.name)
  {
    if key == "Enter" && u.autocompleteLoaded then PlaceChanged(u, place, u.weather.name) else Step(u, None)
  }

  /** `handleLastSearchedClick`: put the name back in the input box, then run
      `processLocation`. The name it passes along is never read, so the search is for
      whatever place the autocomplete widget holds. */
  function LastSearchedClicked(u: Ui, lastSearchedLocation: string, place: Option<Place>): (s: Step)
    ensures s == Searched(u.(input := lastSearchedLocation), place)
    ensures s.request.None? ==> s.ui.input == lastSearchedLocation
  {
    Searched(u.(input := lastSearchedLocation), place)
  }

  /** Whether a response is the API's not-found answer: `data.cod === "404"`, a string
      compared strictly, so a numeric 404 is not one. */
  predicate IsNotFound(data: WeatherData)
    ensures IsNotFound(data) ==> data.cod.CodText? && data.cod.text == "404"
    ensures data.cod.CodNumber? || data.cod.NoCod? ==> !IsNotFound(data)
  {
    data.cod == CodText("404")
  }

  /** The continuation of `fetchWeatherData`. A not-found answer shows
      "<name> not found!" and empties the weather; any other answer replaces the weather,
      shows the requested name and records it as the last search when it differs from the
      name the starting handler saw; a failure shows the generic message. */
  function WeatherReceived(u: Ui, request: WeatherRequest, outcome: FetchOutcome): (v: Ui)
    ensures !v.loading
    ensures v.state == u.state && v.country == u.country && v.autocompleteLoaded == u.autocompleteLoaded
    ensures outcome.Failed? ==> v == u.(error := Some(FetchFailed), loading := false)
    ensures outcome.Received? && IsNotFound(outcome.data) ==>
      v.error == Some(request.locationName + " not found!") && v.weather == EmptyObject &&
      v.input == "" && v.location == u.location && v.lastSearched == u.lastSearched && v.stored == u.stored
    ensures outcome.Received? && !IsNotFound(outcome.data) ==>
      v.weather == outcome.data && v.location == request.locationName && v.input == "" &&
      v.error == u.error &&
      (if request.seenName != Some(request.locationName)
       then v.lastSearched == request.locationName && v.stored == Some(request.locationName)
       else v.lastSearched == u.lastSearched && v.stored == u.stored)
  {
    match outcome
    case Failed => u.(error := Some(FetchFailed), loading := false)
    case Received(data) =>
      var answered :=
        if IsNotFound(data) then
          u.(error := Some(request.locationName + " not found!"), weather := EmptyObject)
        else
          var recorded :=
            if request.seenName != Some(request.locationName)
            then u.(lastSearched := request.locationName, stored := Some(request.locationName))
            else u;
          recorded.(weather := data, location := request.locationName);
      answered.(loading := false, input := "")
  }

  // ----- What the page shows -----

  /** The weather pane: the place name and its font size, state and country, and the
      three clock times (the current time in UTC, sunset and sunrise at the place). */
  datatype Pane = Pane(location: string, fontSize: string, state: string, country: string,
                       currentTime: string, sunset: string, sunrise: string)

  datatype View = Spinner | ErrorText(message: string) | WeatherPane(pane: Pane) | EmptyParagraph

  /** The render's choice, in priority order: the spinner while loading, then the error,
      then the weather when the response has `main`, and otherwise an empty paragraph. */
  function Render(u: Ui): (v: View)
    ensures v.Spinner? <==> u.loading
    ensures v.ErrorText? <==> !u.loading && IsTruthy(u.error)
    ensures v.ErrorText? ==> v.message == u.error.value
    ensures v.WeatherPane? <==> !u.loading && !IsTruthy(u.error) && u.weather.report.Some?
    ensures v.EmptyParagraph? <==> !u.loading && !IsTruthy(u.error) && u.weather.report.None?
    ensures v.WeatherPane? ==>
      var p := v.pane; var w := u.weather.report.value;
      p.location == u.location && p.fontSize == InlineFontSize(u.location) &&
      p.state == u.state && p.country == u.country &&
      p.currentTime == Clock.ConvertTimestampToTime(w.dt, 0) &&
      p.sunset == Clock.ConvertTimestampToTime(w.sunset, w.timezone) &&
      p.sunrise == Clock.ConvertTimestampToTime(w.sunrise, w.timezone)
  {
    if u.loading then Spinner
    else if IsTruthy(u.error) then ErrorText(u.error.value)
    else match u.weather.report
      case Some(w) =>
        WeatherPane(Pane(u.location, InlineFontSize(u.location), u.state, u.country,
                         Clock.ConvertTimestampToTime(w.dt, 0),
                         Clock.ConvertTimestampToTime(w.sunset, w.timezone),
                         Clock.ConvertTimestampToTime(w.sunrise, w.timezone)))
      case None => EmptyParagraph
  }

  /** The "Last searched" link is shown exactly when there is a last search. */
  function LastSearchedLink(u: Ui): (link: Option<string>)
    ensures link.Some? <==> u.lastSearched != ""
    ensures link.Some? ==> link.value == u.lastSearched
  {
    if u.lastSearched != "" then Some(u.lastSearched) else None
  }

  // ----- Invariant -----

  /** What every reachable state satisfies: while loading there is neither an error nor
      weather, every error is a non-empty message, and `lastSearched` mirrors the stored
      copy. */
  predicate Consistent(u: Ui) {
    (u.loading ==> u.error == None && u.weather == EmptyObject) &&
    (u.error.Some? ==> u.error.value != "") &&
    u.lastSearched == StoredOrEmpty(u.stored)
  }

  lemma InitialConsistent(stored: Option<string>)
    ensures Consistent(Initial(stored))
  {
  }

  lemma SearchedConsistent(u: Ui, place: Option<Place>)
    requires Consistent(u)
    ensures Consistent(Searched(u, place).ui)
  {
  }

  lemma PlaceChangedConsistent(u: Ui, place: Option<Place>, seenName: Option<string>)
    requires Consistent(u) && u.autocompleteLoaded
    ensures Consistent(PlaceChanged(u, place, seenName).ui)
  {
  }

  lemma WeatherReceivedConsistent(u: Ui, request: WeatherRequest, outcome: FetchOutcome)
    requires Consistent(u)
    ensures Consistent(WeatherReceived(u, request, outcome))
  {
  }

  /** In a consistent state an error is shown exactly when there is one: the truthiness
      test and `error !== null` agree. */
  lemma ErrorShownIffSet(u: Ui)
    requires Consistent(u)
    ensures Render(u).ErrorText? <==> !u.loading && u.error.Some?
  {
  }

  // ----- A search from start to finish -----

  /** Searching for a place with geometry shows the spinner; a weather answer with `main`
      then shows that place's pane, with its state and country, and records it as the last
      search unless the weather shown before the search already bore its name. */
  lemma SearchThenWeather(u: Ui, p: Place, data: WeatherData)
    requires u.autocompleteLoaded && p.geometry.Some?
    requires !IsNotFound(data) && data.report.Some?
    ensures var s := Searched(u, Some(p));
      s.request.Some? && Render(s.ui) == Spinner &&
      var v := WeatherReceived(s.ui, s.request.value, Received(data));
      Render(v).WeatherPane? && Render(v).pane.location == p.name &&
      Render(v).pane.country == GetAddressComponent(p.addressComponents, "country") &&
      Render(v).pane.state == GetAddressComponent(p.addressComponents, "administrative_area_level_1") &&
      v.lastSearched == (if u.weather.name == Some(p.name) then u.lastSearched else p.name)
  {
    var s := Searched(u, Some(p));
    var v := WeatherReceived(s.ui, s.request.value, Received(data));
    assert v.error == None;
  }

  /** Searching for a place the weather service does not know ends on its error message. */
  lemma SearchThenNotFound(u: Ui, p: Place, data: WeatherData)
    requires u.autocompleteLoaded && p.geometry.Some? && IsNotFound(data)
    ensures var s := Searched(u, Some(p));
      s.request.Some? &&
      Render(WeatherReceived(s.ui, s.request.value, Received(data))) == ErrorText(p.name + " not found!")
  {
    var s := Searched(u, Some(p));
    assert |p.name + " not found!"| > 0;
  }

  /** A search that starts no request never leaves the spinner on. */
  lemma SearchWithoutRequest(u: Ui, place: Option<Place>)
    requires Searched(u, place).request.None?
    ensures Render(Searched(u, place).ui).ErrorText?
  {
  }

  /** A place picked in the widget is always recorded as the last search once its weather
      arrives, even when the weather shown already bore that name. */
  lemma PlaceSelectedRecordsName(u: Ui, p: Place, data: WeatherData)
    requires u.autocompleteLoaded && p.geometry.Some? && !IsNotFound(data)
    ensures var s := PlaceSelected(u, Some(p));
      s.request.Some? &&
      var v := WeatherReceived(s.ui, s.request.value, Received(data));
      v.lastSearched == p.name && v.stored == Some(p.name) && v.location == p.name
  {
  }

  /** A pick answered not-found, or whose request fails, is not recorded as the last
      search, and ends on an error message. */
  lemma PlaceSelectedUnrecordedOnError(u: Ui, p: Place, outcome: FetchOutcome)
    requires u.autocompleteLoaded && p.geometry.Some?
    requires outcome.Failed? || IsNotFound(outcome.data)
    ensures var s := PlaceSelected(u, Some(p));
      s.request.Some? &&
      var v := WeatherReceived(s.ui, s.request.value, outcome);
      v.lastSearched == u.lastSearched && v.stored == u.stored && Render(v).ErrorText?
  {
    var s := PlaceSelected(u, Some(p));
    assert |s.request.value.locationName + " not found!"| > 0;
  }

  /** `handlePlaceChanged` neither clears the error nor shows the spinner, and a
      successful answer leaves the error as it was: after an error, every place picked in
      the widget still ends on that message once its weather arrives. */
  lemma PlaceSelectedKeepsError(u: Ui, p: Place, data: WeatherData)
    requires u.autocompleteLoaded && p.geometry.Some? && !IsNotFound(data) && IsTruthy(u.error)
    ensures var s := PlaceSelected(u, Some(p));
      s.request.Some? &&
      Render(WeatherReceived(s.ui, s.request.value, Received(data))) == ErrorText(u.error.value)
  {
  }

  /** While a pick's request is in flight, the pane already shows the new name, state and
      country, over the weather of the place shown before. */
  lemma PlaceSelectedShowsOldWeather(u: Ui, p: Place)
    requires u.autocompleteLoaded && p.geometry.Some?
    requires !u.loading && !IsTruthy(u.error) && u.weather.report.Some?
    ensures var v := Render(PlaceSelected(u, Some(p)).ui);
      v.WeatherPane? && v.pane.location == p.name &&
      v.pane.country == GetAddressComponent(p.addressComponents, "country") &&
      v.pane.currentTime == Clock.ConvertTimestampToTime(u.weather.report.value.dt, 0)
  {
  }

  /** Once a weather answer with `main` has arrived and no error is set, the page shows the
      pane for the requested name, in that name's font size. */
  lemma WeatherShowsPane(u: Ui, request: WeatherRequest, data: WeatherData)
    requires !IsNotFound(data) && data.report.Some? && !IsTruthy(u.error)
    ensures var v := Render(WeatherReceived(u, request, Received(data)));
      v.WeatherPane? && v.pane.location == request.locationName &&
      v.pane.fontSize == InlineFontSize(request.locationName) &&
      v.pane.currentTime == Clock.ConvertTimestampToTime(data.report.value.dt, 0)
  {
  }

  // ----- The component -----

  /** The mounted component. Its fields are the `useState` variables and the stored copy
      of the last search. `HandleKeyDown` is modelled as written although nothing calls it;
      every other method is one event handler or one response callback. */
  class WeatherApp {
    var location: string
    var state: string
    var country: string
    var weather: WeatherData
    var loading: bool
    var error: Option<string>
    var input: string
    var lastSearched: string
    var stored: Option<string>
    var autocompleteLoaded: bool

    function State(): Ui
      reads this
    {
      Ui(location, state, country, weather, loading, error, input, lastSearched, stored, autocompleteLoaded)
    }

    predicate Valid()
      reads this
    {
      Consistent(State())
    }

    /** Mounting: every field at its initial value, `lastSearched` read from storage. */
    constructor (storedLastSearched: Option<string>)
      ensures State() == Initial(storedLastSearched)
      ensures Valid()
    {
      location, state, country := "", "", "";
      weather := EmptyObject;
      loading := false;
      error := None;
      input := "";
      lastSearched := StoredOrEmpty(storedLastSearched);
      stored := storedLastSearched;
      autocompleteLoaded := false;
    }

    /** `onLoad`: the autocomplete widget is ready. */
    method OnLoad()
      modifies this
      ensures State() == old(State()).(autocompleteLoaded := true)
      ensures old(Valid()) ==> Valid()
    {
      autocompleteLoaded := true;
    }

    /** The input box's `onChange`. */
    method OnInputChange(value: string)
      modifies this
      ensures State() == old(State()).(input := value)
      ensures old(Valid()) ==> Valid()
    {
      input := value;
    }

    /** `processLocation(ev, loc)`; `place` is what the widget's `getPlace()` returns. */
    method ProcessLocation(place: Option<Place>) returns (request: Option<WeatherRequest>)
      modifies this
      ensures Step(State(), request) == Searched(old(State()), place)
      ensures old(Valid()) ==> Valid()
    {
      var seenName := weather.name;
      loading := true;
      error := None;
      weather := EmptyObject;
      location := "";
      state := "";
      country := "";
      if autocompleteLoaded {
        if place.Some? && place.value.geometry.Some? {
          var p := place.value;
          var placeCountry := GetAddressComponent(p.addressComponents, "country");
          var placeState := GetAddressComponent(p.addressComponents, "administrative_area_level_1");
          input := "";
          country := placeCountry;
          state := placeState;
          request := Some(WeatherRequest(p.geometry.value.lat, p.geometry.value.lng, p.name, seenName));
        } else {
          error := Some(LocationNotFound);
          loading := false;
          request := None;
        }
      } else {
        error := Some(NotInitialized);
        loading := false;
        request := None;
      }
    }

    /** `handlePlaceChanged` of the render whose `weather.name` was `seenName`. */
    method HandlePlaceChanged(place: Option<Place>, seenName: Option<string>)
      returns (request: Option<WeatherRequest>)
      requires autocompleteLoaded
      modifies this
      ensures Step(State(), request) == PlaceChanged(old(State()), place, seenName)
      ensures old(Valid()) ==> Valid()
    {
      request := None;
      if place.Some? && place.value.geometry.Some? {
        var p := place.value;
        var placeCountry := GetAddressComponent(p.addressComponents, "country");
        var placeState := GetAddressComponent(p.addressComponents, "administrative_area_level_1");
        location := p.name;
        country := placeCountry;
        state := placeState;
        request := Some(WeatherRequest(p.geometry.value.lat, p.geometry.value.lng, p.name, seenName));
      }
    }

    /** The `place_changed` listener: `handlePlaceChanged` of the render where the widget
        loaded, whose weather was `{}`. */
    method OnPlaceChanged(place: Option<Place>) returns (request: Option<WeatherRequest>)
      requires autocompleteLoaded
      modifies this
      ensures Step(State(), request) == PlaceSelected(old(State()), place)
      ensures old(Valid()) ==> Valid()
    {
      request := HandlePlaceChanged(place, EmptyObject.name);
    }

    /** `handleKeyDown`, which calls the current render's `handlePlaceChanged`. */
    method HandleKeyDown(key: string, place: Option<Place>) returns (request: Option<WeatherRequest>)
      modifies this
      ensures Step(State(), request) == KeyPressed(old(State()), key, place)
      ensures old(Valid()) ==> Valid()
    {
      request := None;
      if key == "Enter" && autocompleteLoaded {
        request := HandlePlaceChanged(place, weather.name);
      }
    }

    /** `handleLastSearchedClick(lastSearchedLocation)`. */
    method HandleLastSearchedClick(lastSearchedLocation: string, place: Option<Place>)
      returns (request: Option<WeatherRequest>)
      modifies this
      ensures Step(State(), request) == LastSearchedClicked(old(State()), lastSearchedLocation, place)
      ensures old(Valid()) ==> Valid()
    {
      input := lastSearchedLocation;
      request := ProcessLocation(place);
    }

    /** The `.then`/`.catch` continuation of `fetchWeatherData` for `request`. */
    method ReceiveWeather(request: WeatherRequest, outcome: FetchOutcome)
      modifies this
      ensures State() == WeatherReceived(old(State()), request, outcome)
      ensures old(Valid()) ==> Valid()
    {
      match outcome {
        case Failed =>
          error := Some(FetchFailed);
          loading := false;
        case Received(data) =>
          if IsNotFound(data) {
            error := Some(request.locationName + " not found!");
            weather := EmptyObject;
          } else {
            weather := data;
            if request.seenName != Some(request.locationName) {
              lastSearched := request.locationName;
              stored := Some(request.locationName);
            }
            location := request.locationName;
          }
          loading := false;
          input := "";
      }
    }
  }
}
