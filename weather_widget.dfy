/** The header's weather widget: the icon shown for a WMO weather code. */
module WeatherWidget {

  datatype Icon = Sun | SunBehindCloud | Fog | Rain | Showers | Thunderstorm | Fallback

  /** The emoji each icon renders as. */
  function Glyph(i: Icon): string {
    match i
    case Sun => "\U{2600}\U{FE0F}"
    case SunBehindCloud => "\U{26C5}"
    case Fog => "\U{1F32B}\U{FE0F}"
    case Rain => "\U{1F327}\U{FE0F}"
    case Showers => "\U{1F326}\U{FE0F}"
    case Thunderstorm => "\U{26C8}\U{FE0F}"
    case Fallback => "\U{1F324}\U{FE0F}"
  }

  /** getWeatherIcon: the first matching check wins, anything unmatched gets the fallback. */
  function GetWeatherIcon(code: int): (icon: Icon)
    ensures icon != Fallback ==> InBand(icon, code)
  {
    if code == 0 then Sun
    else if code == 1 || code == 2 || code == 3 then SunBehindCloud
    else if 45 <= code <= 48 then Fog
    else if 51 <= code <= 67 then Rain
    else if 80 <= code <= 82 then Showers
    else if code >= 95 then Thunderstorm
    else Fallback
  }

  /** The codes each specific icon stands for; the fallback has no band of its own. */
  predicate InBand(i: Icon, code: int) {
    match i
    case Sun => code == 0
    case SunBehindCloud => 1 <= code <= 3
    case Fog => 45 <= code <= 48
    case Rain => 51 <= code <= 67
    case Showers => 80 <= code <= 82
    case Thunderstorm => 95 <= code
    case Fallback => false
  }

  /** No code lies in two bands, so the order of the checks does not matter. */
  lemma BandsDisjoint(i: Icon, j: Icon, code: int)
    requires InBand(i, code) && InBand(j, code)
    ensures i == j
  {
  }

  /** The widget shows a specific icon exactly for the codes in its band, and the fallback for all others. */
  lemma IconMatchesBand(code: int)
    ensures forall i :: i != Fallback ==> (GetWeatherIcon(code) == i <==> InBand(i, code))
    ensures GetWeatherIcon(code) == Fallback <==> forall i :: !InBand(i, code)
  {
    if GetWeatherIcon(code) == Fallback {
      forall i ensures !InBand(i, code) {
      }
    } else {
      assert InBand(GetWeatherIcon(code), code);
    }
  }

  /** The snow codes, the gaps between bands and negative codes all show the fallback. */
  lemma UnlistedCodesFallBack(code: int)
    requires code < 0 || 4 <= code <= 44 || 49 <= code <= 50 || 68 <= code <= 79 || 83 <= code <= 94
    ensures GetWeatherIcon(code) == Fallback
  {
  }

  /** Each icon's glyph is distinct, so the icon can be read back from what is shown. */
  lemma GlyphsDistinct(i: Icon, j: Icon)
    requires Glyph(i) == Glyph(j)
    ensures i == j
  {
  }
}
