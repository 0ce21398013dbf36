/** The clock's user-interface state: the weather toggle, the settings panel
    and the 12/24-hour choice, with the events that change them. */
module Controls {
  import Display

  /** The discrete user events the page listens for. */
  datatype Event =
    | WeatherClick                  // the weather button
    | OpenSettings                  // the settings button
    | CloseSettings                 // the panel's close button
    | FormatChange(value: string)   // the time-format selector, with its chosen value

  /** A snapshot of the control state. `weatherHidden` is the weather panel's
      'hidden' class and `settingsOpen` the settings panel's 'open' class;
      `fetches` counts the weather fetches requested so far. */
  datatype Ui = Ui(showWeather: bool, weatherHidden: bool, settingsOpen: bool, is24Hour: bool, fetches: nat)

  /** The state when the page has loaded: weather not shown, 24-hour form,
      nothing fetched. The two panel classes are whatever the page's markup
      gives them. */
  function Initial(weatherHidden: bool, settingsOpen: bool): (u: Ui)
    ensures !u.showWeather && u.is24Hour && u.fetches == 0
    ensures u.weatherHidden == weatherHidden && u.settingsOpen == settingsOpen
  {
    Ui(false, weatherHidden, settingsOpen, true, 0)
  }

  /** The effect of one event. */
  function Step(u: Ui, e: Event): Ui {
    match e
    case WeatherClick =>
      var show := !u.showWeather;
      u.(showWeather := show, weatherHidden := !show,
         fetches := if show then u.fetches + 1 else u.fetches)
    case OpenSettings => u.(settingsOpen := true)
    case CloseSettings => u.(settingsOpen := false)
    case FormatChange(value) => u.(is24Hour := value == "24")
  }

  /** The effect of a sequence of events, in arrival order. */
  function Run(u: Ui, events: seq<Event>): Ui
    decreases |events|
  {
    if events == [] then u else Run(Step(u, events[0]), events[1..])
  }

  // ---------------------------------------------------------------------
  // One event
  // ---------------------------------------------------------------------

  /** A weather click flips visibility, shows the panel exactly when the new
      value is true, and requests a fetch exactly on the hidden-to-shown edge;
      nothing else changes. */
  lemma WeatherClickEffect(u: Ui)
    ensures var v := Step(u, WeatherClick);
      && v.showWeather == !u.showWeather
      && v.weatherHidden == !v.showWeather
      && (v.fetches == u.fetches + 1 <==> v.showWeather)
      && (v.fetches == u.fetches <==> !v.showWeather)
      && v.settingsOpen == u.settingsOpen && v.is24Hour == u.is24Hour
  {
  }

  /** Two weather clicks restore the original visibility, and exactly one of
      them requested a fetch. */
  lemma WeatherClickTwice(u: Ui)
    ensures var v := Step(Step(u, WeatherClick), WeatherClick);
      && v.showWeather == u.showWeather
      && v.fetches == u.fetches + 1
      && v.weatherHidden == !u.showWeather
  {
  }

  /** Opening the settings panel leaves it open however often it is done, and
      closing leaves it closed; neither touches anything else. */
  lemma SettingsIdempotent(u: Ui)
    ensures Step(u, OpenSettings).settingsOpen && !Step(u, CloseSettings).settingsOpen
    ensures Step(Step(u, OpenSettings), OpenSettings) == Step(u, OpenSettings)
    ensures Step(Step(u, CloseSettings), CloseSettings) == Step(u, CloseSettings)
    ensures Step(u, OpenSettings).(settingsOpen := u.settingsOpen) == u
    ensures Step(u, CloseSettings).(settingsOpen := u.settingsOpen) == u
  {
  }

  /** The format choice selects 24-hour form exactly when its value is "24". */
  lemma FormatChangeEffect(u: Ui, value: string)
    ensures Step(u, FormatChange(value)).is24Hour <==> value == "24"
    ensures Step(u, FormatChange("12")).is24Hour == false
    ensures Step(u, FormatChange(value)).(is24Hour := u.is24Hour) == u
  {
  }

  // ---------------------------------------------------------------------
  // Sequences of events
  // ---------------------------------------------------------------------

  /** How many weather clicks a sequence of events holds. */
  function Clicks(events: seq<Event>): nat
    decreases |events|
  {
    if events == [] then 0
    else (if events[0].WeatherClick? then 1 else 0) + Clicks(events[1..])
  }

  /** The clicks of two consecutive sequences of events add up. */
  lemma {:induction false} ClicksAppend(a: seq<Event>, b: seq<Event>)
    ensures Clicks(a + b) == Clicks(a) + Clicks(b)
    decreases |a|
  {
    if a != [] {
      assert (a + b)[0] == a[0] && (a + b)[1..] == a[1..] + b;
      ClicksAppend(a[1..], b);
    } else {
      assert a + b == b;
    }
  }

  /** Only weather clicks matter to the weather state: after any sequence of
      events the panel is shown iff an odd number of clicks flipped it, and
      one fetch was requested per hidden-to-shown edge. */
  lemma {:induction false} RunWeather(u: Ui, events: seq<Event>)
    ensures Run(u, events).showWeather == (u.showWeather != (Clicks(events) % 2 == 1))
    ensures Run(u, events).fetches
         == u.fetches + (if u.showWeather then Clicks(events) / 2 else (Clicks(events) + 1) / 2)
    decreases |events|
  {
    if events != [] {
      RunWeather(Step(u, events[0]), events[1..]);
    }
  }

  /** The panel's 'hidden' class agrees with the toggle. */
  ghost predicate Consistent(u: Ui) {
    u.weatherHidden == !u.showWeather
  }

  /** A page whose weather panel starts hidden starts in agreement. */
  lemma InitialConsistent(settingsOpen: bool)
    ensures Consistent(Initial(true, settingsOpen))
  {
  }

  /** Every event keeps the panel in agreement with the toggle. */
  lemma {:induction false} RunConsistent(u: Ui, events: seq<Event>)
    requires Consistent(u)
    ensures Consistent(Run(u, events))
    decreases |events|
  {
    if events != [] {
      RunConsistent(Step(u, events[0]), events[1..]);
    }
  }

  /** The format flag after a sequence of events is set by the last format
      change in it. */
  lemma {:induction false} RunFormatLast(u: Ui, events: seq<Event>, i: nat)
    requires i < |events| && events[i].FormatChange?
    requires forall j :: i < j < |events| ==> !events[j].FormatChange?
    ensures Run(u, events).is24Hour == (events[i].value == "24")
    decreases |events|
  {
    if i == 0 {
      RunFormatUnchanged(Step(u, events[0]), events[1..]);
    } else {
      RunFormatLast(Step(u, events[0]), events[1..], i - 1);
    }
  }

  /** Without a format change, the format flag keeps its value. */
  lemma {:induction false} RunFormatUnchanged(u: Ui, events: seq<Event>)
    requires forall j :: 0 <= j < |events| ==> !events[j].FormatChange?
    ensures Run(u, events).is24Hour == u.is24Hour
    decreases |events|
  {
    if events != [] {
      assert !events[0].FormatChange?;
      RunFormatUnchanged(Step(u, events[0]), events[1..]);
    }
  }

  // ---------------------------------------------------------------------
  // The page's live state
  // ---------------------------------------------------------------------

  /** The mutable state the page's event handlers share. */
  class UiControls {
    var showWeather: bool
    var weatherHidden: bool
    var settingsOpen: bool
    var is24Hour: bool
    ghost var fetches: nat

    ghost function State(): Ui
      reads this
    {
      Ui(showWeather, weatherHidden, settingsOpen, is24Hour, fetches)
    }

    constructor (weatherInitiallyHidden: bool, settingsInitiallyOpen: bool)
      ensures State() == Initial(weatherInitiallyHidden, settingsInitiallyOpen)
    {
      showWeather := false;
      weatherHidden := weatherInitiallyHidden;
      settingsOpen := settingsInitiallyOpen;
      is24Hour := true;
      fetches := 0;
    }

    /** The weather button: returns whether a weather fetch is started. */
    method ClickWeather() returns (fetchRequested: bool)
      modifies this
      ensures State() == Step(old(State()), WeatherClick)
      ensures fetchRequested == showWeather == !old(showWeather)
    {
      showWeather := !showWeather;
      if showWeather {
        weatherHidden := false;
        fetches := fetches + 1;
      } else {
        weatherHidden := true;
      }
      fetchRequested := showWeather;
    }

    method OpenSettings()
      modifies this
      ensures State() == Step(old(State()), Event.OpenSettings)
    {
      settingsOpen := true;
    }

    method CloseSettings()
      modifies this
      ensures State() == Step(old(State()), Event.CloseSettings)
    {
      settingsOpen := false;
    }

    method ChangeFormat(value: string)
      modifies this
      ensures State() == Step(old(State()), FormatChange(value))
    {
      is24Hour := value == "24";
    }

    /** The digital display for one wall-clock sample, in the current format. */
    method DigitalDisplay(h: nat, m: nat, s: nat) returns (r: Display.Readout)
      requires h < 24 && m < 60 && s < 60
      ensures |r.hours| == 2 && |r.minutes| == 2 && |r.seconds| == 2
      ensures Display.AllDigits(r.hours) && Display.AllDigits(r.minutes) && Display.AllDigits(r.seconds)
      ensures Display.ParseDecimal(r.hours) == Display.DisplayHour(h, is24Hour)
      ensures Display.ParseDecimal(r.minutes) == m && Display.ParseDecimal(r.seconds) == s
    {
      r := Display.DigitalReadout(h, m, s, is24Hour);
      Display.ReadoutRoundTrip(h, m, s, is24Hour);
    }
  }
}
