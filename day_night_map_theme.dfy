/**
 * Tile selection by time of day. The hour of the local clock decides day or night over
 * [6, 18); the user's theme choice (day, auto, night) decides whether that matters. Dark tiles
 * bring the CARTO credit and a dimmed layer with them. The clock reading and the hourly timer
 * stay outside: the hour arrives as a parameter.
 */
module DayNightMapTheme {
  import opened Optional

  datatype Theme = Day | Auto | Night

  const Sunrise: int := 6
  const Sunset: int := 18

  predicate DaytimeHour(hour: int) {
    Sunrise <= hour < Sunset
  }

  /** JavaScript truthiness of an optional coordinate prop: missing and 0 are both false. */
  predicate Truthy(x: Option<real>) {
    x.Some? && x.value != 0.0
  }

  class ThemeState {
    var isDaytime: bool
    var currentTheme: Theme

    constructor ()
      ensures isDaytime && currentTheme == Auto
    {
      isDaytime := true;
      currentTheme := Auto;
    }

    /**
     * `calculateDayNight`, run on mount and every hour. The branch taken when both coordinates
     * are given sets the same window as the other one, so the props make no difference.
     */
    method CalculateDayNight(hour: int, userLat: Option<real>, userLng: Option<real>)
      modifies this`isDaytime
      ensures isDaytime <==> DaytimeHour(hour)
    {
      if Truthy(userLat) && Truthy(userLng) {
        var sunrise := 6;
        var sunset := 18;
        var localHour := hour;
        isDaytime := localHour >= sunrise && localHour < sunset;
      } else {
        isDaytime := hour >= 6 && hour < 18;
      }
    }

    /** Each of the three buttons sets the theme to its own value. */
    method SetTheme(theme: Theme)
      modifies this`currentTheme
      ensures currentTheme == theme
    {
      currentTheme := theme;
    }
  }

  /** The condition `getMapTileUrl` and `getAttribution` both test. */
  predicate UsesDayTiles(theme: Theme, isDaytime: bool) {
    theme == Day || (theme == Auto && isDaytime)
  }

  /** A fixed choice of theme makes the clock irrelevant. */
  lemma ThemeOverridesClock(theme: Theme, hour1: int, hour2: int)
    requires theme != Auto
    ensures UsesDayTiles(theme, DaytimeHour(hour1)) == UsesDayTiles(theme, DaytimeHour(hour2))
  {
  }

  const DayTiles: string := "https://{s}.tile.openstreetmap.org/{z}/{x}/{y}.png"
  const NightTiles: string := "https://{s}.basemaps.cartocdn.com/dark_all/{z}/{x}/{y}{r}.png"

  function TileUrl(theme: Theme, isDaytime: bool): (url: string)
    ensures url == DayTiles <==> UsesDayTiles(theme, isDaytime)
    ensures url == NightTiles <==> !UsesDayTiles(theme, isDaytime)
  {
    if theme == Day || (theme == Auto && isDaytime) then DayTiles else NightTiles
  }

  const OsmAttribution: string := "&copy; <a href=\"https://www.openstreetmap.org/copyright\">OpenStreetMap</a> contributors"
  const CartoAttribution: string := "&copy; <a href=\"https://carto.com/attributions\">CARTO</a>"

  /** `getAttribution`: the OpenStreetMap credit alone for the day tiles, followed by CARTO's otherwise. */
  function Attribution(theme: Theme, isDaytime: bool): (a: string)
    ensures |a| >= |OsmAttribution| && a[..|OsmAttribution|] == OsmAttribution
    ensures a == OsmAttribution <==> UsesDayTiles(theme, isDaytime)
    ensures !UsesDayTiles(theme, isDaytime) ==> a[|OsmAttribution|..] == " " + CartoAttribution
  {
    if theme == Day || (theme == Auto && isDaytime) then OsmAttribution
    else OsmAttribution + " " + CartoAttribution
  }

  /** The tile providers an attribution text credits. */
  datatype Credit = OpenStreetMapCredit | CartoCredit

  function CreditText(c: Credit): string {
    match c
    case OpenStreetMapCredit => OsmAttribution
    case CartoCredit => CartoAttribution
  }

  /** Credits written one after another, separated by a space. */
  function RenderCredits(cs: seq<Credit>): string {
    if cs == [] then ""
    else if |cs| == 1 then CreditText(cs[0])
    else CreditText(cs[0]) + " " + RenderCredits(cs[1..])
  }

  /** The attribution always credits OpenStreetMap first, and credits CARTO exactly for the dark tiles. */
  function Credits(theme: Theme, isDaytime: bool): (cs: seq<Credit>)
    ensures RenderCredits(cs) == Attribution(theme, isDaytime)
    ensures |cs| >= 1 && cs[0] == OpenStreetMapCredit
    ensures CartoCredit in cs <==> !UsesDayTiles(theme, isDaytime)
  {
    if UsesDayTiles(theme, isDaytime) then [OpenStreetMapCredit]
    else
      assert [OpenStreetMapCredit, CartoCredit][1..] == [CartoCredit];
      [OpenStreetMapCredit, CartoCredit]
  }

  /** The tile layer's class, written with its own condition; it dims exactly the dark tiles. */
  function BrightnessClass(theme: Theme, isDaytime: bool): (c: string)
    ensures c == "brightness-75" <==> !UsesDayTiles(theme, isDaytime)
    ensures c == "brightness-100" <==> UsesDayTiles(theme, isDaytime)
  {
    if theme == Night || (theme == Auto && !isDaytime) then "brightness-75" else "brightness-100"
  }

  /** The theme's own name, as the state string holds it. */
  function ThemeName(theme: Theme): string {
    match theme
    case Day => "day"
    case Auto => "auto"
    case Night => "night"
  }

  /** The caption under the buttons: what the clock says under auto, otherwise the chosen theme. */
  function ThemeCaption(theme: Theme, isDaytime: bool): (s: string)
    ensures theme == Auto ==> (s == "Day" <==> isDaytime) && (s == "Night" <==> !isDaytime)
    ensures theme != Auto ==> s == ThemeName(theme)
  {
    if theme == Auto then (if isDaytime then "Day" else "Night") else ThemeName(theme)
  }

  /** On mount the day tiles are shown, without the CARTO credit. */
  lemma InitialTiles()
    ensures TileUrl(Auto, true) == DayTiles && Credits(Auto, true) == [OpenStreetMapCredit]
    ensures BrightnessClass(Auto, true) == "brightness-100" && ThemeCaption(Auto, true) == "Day"
  {
  }
}
