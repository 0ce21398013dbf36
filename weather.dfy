/** Classification of a WMO present-weather code ("ww", code table 4677 of
    the WMO Manual on Codes, WMO-No. 306), as the weather service reports it,
    into the icon the weather panel shows. */
module Weather {

  /** The eight icons of the weather panel. */
  datatype Icon = Clear | PartlyCloudy | Fog | Rain | Snow | Showers | Thunderstorm | Generic

  /** The icon for a weather code: a chain of inclusive ranges tried in
      order, with a generic thermometer icon for every code none of them
      covers. Codes 51-67 (drizzle, freezing drizzle, rain and freezing
      rain) all show rain; 80-82 (rain showers) show their own icon; 85-86
      (snow showers), like 4-44, 49-50, 68-70, 78-79, 83-94 and every code
      outside 0-99, fall through to the generic icon. */
  function WeatherIcon(code: int): (icon: Icon)
    ensures icon == Clear <==> code == 0
    ensures icon == PartlyCloudy <==> 1 <= code <= 3
    ensures icon == Fog <==> 45 <= code <= 48
    ensures icon == Rain <==> 51 <= code <= 67
    ensures icon == Snow <==> 71 <= code <= 77
    ensures icon == Showers <==> 80 <= code <= 82
    ensures icon == Thunderstorm <==> 95 <= code <= 99
  {
    if code == 0 then Clear
    else if 1 <= code <= 3 then PartlyCloudy
    else if 45 <= code <= 48 then Fog
    else if 51 <= code <= 67 then Rain
    else if 71 <= code <= 77 then Snow
    else if 80 <= code <= 82 then Showers
    else if 95 <= code <= 99 then Thunderstorm
    else Generic
  }

  // ---------------------------------------------------------------------
  // The same classification as a table of bands, and why the order in
  // which the chain tries its ranges does not matter.
  // ---------------------------------------------------------------------

  /** An inclusive range of codes and the icon it shows. */
  datatype Band = Band(lo: int, hi: int, icon: Icon)

  predicate Covers(b: Band, code: int) {
    b.lo <= code <= b.hi
  }

  /** The ranges of the chain, in the order it tries them. */
  const Bands: seq<Band> := [
    Band(0, 0, Clear),
    Band(1, 3, PartlyCloudy),
    Band(45, 48, Fog),
    Band(51, 67, Rain),
    Band(71, 77, Snow),
    Band(80, 82, Showers),
    Band(95, 99, Thunderstorm)
  ]

  /** Tries the bands in order and answers with the first that covers the
      code, or the generic icon when none does. */
  function FirstMatch(bands: seq<Band>, code: int): (icon: Icon)
    ensures icon == Generic || exists i :: 0 <= i < |bands| && Covers(bands[i], code) && bands[i].icon == icon
    decreases |bands|
  {
    if bands == [] then Generic
    else if Covers(bands[0], code) then bands[0].icon
    else FirstMatch(bands[1..], code)
  }

  /** No code is covered by two different bands of the table. */
  ghost predicate Disjoint(bands: seq<Band>) {
    forall a, b, code :: a in bands && b in bands && a != b && Covers(a, code) ==> !Covers(b, code)
  }

  /** With disjoint bands the first covering band is any covering band. */
  lemma {:induction false} FirstMatchIsAnyMatch(bands: seq<Band>, code: int, b: Band)
    requires Disjoint(bands)
    requires b in bands && Covers(b, code)
    ensures FirstMatch(bands, code) == b.icon
    decreases |bands|
  {
    if bands[0] != b {
      assert !Covers(bands[0], code);
      assert b in bands[1..];
      FirstMatchIsAnyMatch(bands[1..], code, b);
    }
  }

  /** A code no band covers gets the generic icon. */
  lemma FirstMatchNoMatch(bands: seq<Band>, code: int)
    requires forall b :: b in bands ==> !Covers(b, code)
    ensures FirstMatch(bands, code) == Generic
  {
  }

  /** Over disjoint bands the order of the checks is immaterial: any
      reordering of the same bands classifies every code alike. */
  lemma OrderIndependent(bands: seq<Band>, reordered: seq<Band>, code: int)
    requires Disjoint(bands)
    requires forall b :: b in bands <==> b in reordered
    ensures FirstMatch(bands, code) == FirstMatch(reordered, code)
  {
    if b :| b in bands && Covers(b, code) {
      FirstMatchIsAnyMatch(bands, code, b);
      FirstMatchIsAnyMatch(reordered, code, b);
    } else {
      FirstMatchNoMatch(bands, code);
      FirstMatchNoMatch(reordered, code);
    }
  }

  /** The ranges of the chain are pairwise disjoint. */
  lemma BandsDisjoint()
    ensures Disjoint(Bands)
  {
  }

  /** The chain and the table agree on every code. */
  lemma WeatherIconIsTable(code: int)
    ensures WeatherIcon(code) == FirstMatch(Bands, code)
  {
  }

  /** Whatever order the chain tried its ranges in, it would show the same icons. */
  lemma WeatherIconOrderIndependent(reordered: seq<Band>, code: int)
    requires forall b :: b in Bands <==> b in reordered
    ensures FirstMatch(reordered, code) == WeatherIcon(code)
  {
    BandsDisjoint();
    WeatherIconIsTable(code);
    OrderIndependent(Bands, reordered, code);
  }

  /** Sample codes: 0 is clear, 61 rain, 96 thunderstorm, and 12, 85 and
      100 fall back to the generic icon. */
  lemma WeatherIconExamples()
    ensures WeatherIcon(0) == Clear
    ensures WeatherIcon(61) == Rain
    ensures WeatherIcon(96) == Thunderstorm
    ensures WeatherIcon(12) == Generic && WeatherIcon(85) == Generic && WeatherIcon(100) == Generic
  {
  }
}
