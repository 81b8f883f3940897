/**
 * The lookup tables of cogs/weather.py: compass_dir, which bands a wind
 * bearing into the 16-point compass rose, and weather_emoji, which maps an
 * OpenWeatherMap condition code to a symbol.
 */
module Weather {

  /** The 16 points of the compass rose, clockwise from north. */
  const Rose: seq<string> :=
    ["N", "NNE", "NE", "ENE", "E", "ESE", "SE", "SSE",
     "S", "SSW", "SW", "WSW", "W", "WNW", "NW", "NNW"]

  /**
   * What compass_dir does: returns an abbreviation, raises ValueError
   * ("Bearing not in domain."), or falls off the end of its if/elif chain and
   * returns None.
   */
  datatype Bearing = Direction(abbrev: string) | DomainError | NoneReturned

  /** compass_dir, branch by branch. */
  function CompassDir(angle: real): (r: Bearing)
    ensures r.DomainError? <==> angle < 0.0 || angle >= 360.0
    ensures !r.NoneReturned?
    ensures r.Direction? ==> r.abbrev in Rose
  {
    if angle < 0.0 || angle >= 360.0 then DomainError
    else if angle < 11.25 || angle >= 348.75 then Direction("N")
    else if angle < 33.75 then Direction("NNE")
    else if angle < 56.25 then Direction("NE")
    else if angle < 78.75 then Direction("ENE")
    else if angle < 101.25 then Direction("E")
    else if angle < 123.75 then Direction("ESE")
    else if angle < 146.25 then Direction("SE")
    else if angle < 168.75 then Direction("SSE")
    else if angle < 191.25 then Direction("S")
    else if angle < 213.75 then Direction("SSW")
    else if angle < 236.25 then Direction("SW")
    else if angle < 258.75 then Direction("WSW")
    else if angle < 281.25 then Direction("W")
    else if angle < 303.75 then Direction("WNW")
    else if angle < 326.25 then Direction("NW")
    else if angle < 348.75 then Direction("NNW")
    else NoneReturned
  }

  /**
   * Sector k of the rose: for k >= 1 the half-open band of width 22.5 centred
   * on 22.5 * k, and for k == 0 the band around north, which wraps past 360.
   */
  predicate InSector(angle: real, k: int)
  {
    if k == 0 then (0.0 <= angle < 11.25) || (348.75 <= angle < 360.0)
    else 1 <= k < 16 && 22.5 * (k as real) - 11.25 <= angle < 22.5 * (k as real) + 11.25
  }

  /** The sector index, computed arithmetically: round(angle / 22.5) modulo 16, halves rounded up. */
  function SectorIndex(angle: real): (k: int)
  {
    ((angle + 11.25) / 22.5).Floor % 16
  }

  /** compass_dir answers Rose[k] exactly on sector k: each point's band, lower bound inclusive. */
  lemma CompassSector(angle: real, k: int)
    requires 0 <= k < 16
    ensures CompassDir(angle) == Direction(Rose[k]) <==> InSector(angle, k)
  {
  }

  /** On its domain, compass_dir is the arithmetic banding of the rose. */
  lemma CompassIsRounding(angle: real)
    requires 0.0 <= angle < 360.0
    ensures 0 <= SectorIndex(angle) < 16
    ensures CompassDir(angle) == Direction(Rose[SectorIndex(angle)])
  {
    var q := ((angle + 11.25) / 22.5).Floor;
    assert 0 <= q <= 16;
    var k := q % 16;
    assert q == 16 ==> k == 0;
    assert q < 16 ==> k == q;
    assert (q as real) <= (angle + 11.25) / 22.5 < (q as real) + 1.0;
    assert InSector(angle, k);
    CompassSector(angle, k);
  }

  /** The symbols weather_emoji returns (U+1F329, U+1F327, U+2744, U+2600, U+26C5, U+2601). */
  const Thunderstorm := "\U{1F329}"
  const Rain := "\U{1F327}"
  const Snow := "\U{2744}"
  const Sun := "\U{2600}"
  const FewClouds := "\U{26C5}"
  const Overcast := "\U{2601}"

  datatype Lookup = Symbol(glyph: string) | Unrecognized

  /** Python's int(code / 100): truncation toward zero, not floor. */
  function Hundreds(code: int): (h: int)
  {
    if code >= 0 then code / 100 else -((-code) / 100)
  }

  /** weather_emoji's if/elif chain over the condition code. */
  function WeatherEmoji(code: int): (l: Lookup)
  {
    if Hundreds(code) == 2 then Symbol(Thunderstorm)
    else if Hundreds(code) == 3 || Hundreds(code) == 5 then Symbol(Rain)
    else if Hundreds(code) == 6 then Symbol(Snow)
    else if code == 800 then Symbol(Sun)
    else if 801 <= code <= 803 then Symbol(FewClouds)
    else if code == 804 then Symbol(Overcast)
    else Unrecognized
  }

  /**
   * The table weather_emoji implements, by code range: 2xx thunderstorm,
   * 3xx and 5xx rain, 6xx snow, 800 sun, 801 to 803 few clouds, 804 overcast,
   * and ValueError for every other code (1xx, 4xx, 7xx, 805 and up, negatives).
   */
  lemma EmojiTable(code: int)
    ensures WeatherEmoji(code) == Symbol(Thunderstorm) <==> 200 <= code <= 299
    ensures WeatherEmoji(code) == Symbol(Rain) <==> 300 <= code <= 399 || 500 <= code <= 599
    ensures WeatherEmoji(code) == Symbol(Snow) <==> 600 <= code <= 699
    ensures WeatherEmoji(code) == Symbol(Sun) <==> code == 800
    ensures WeatherEmoji(code) == Symbol(FewClouds) <==> 801 <= code <= 803
    ensures WeatherEmoji(code) == Symbol(Overcast) <==> code == 804
    ensures WeatherEmoji(code) == Unrecognized <==>
      !(200 <= code <= 399 || 500 <= code <= 699 || 800 <= code <= 804)
  {
  }
}
