/** The simplified Military Grid Reference System converter and the degree/minute formatter
    (src/utils/mgrs.ts).  Latitudes and longitudes are in degrees.  The transverse-Mercator
    series that turns a position into easting and northing is floating-point trigonometry
    and is taken as a parameter `project(lat, lng, zone)`; everything around it is modelled
    as written. */
module Mgrs {
  import opened Wrappers
  import opened JsRuntime

  /** The transverse-Mercator series: (lat, lng, zone) to (easting, northing) in metres,
      the northing before the southern false northing is added. */
  type Projection = (real, real, int) -> (real, real)

  /** The 20 latitude bands, 8 degrees each, from -80 upward (I and O are skipped). */
  const Bands: string := "CDEFGHJKLMNPQRSTUVWX"

  /** Column letters of the 100-km square, one alphabet per zone set. */
  const ColumnLetters: seq<string> :=
    ["ABCDEFGH", "JKLMNPQR", "STUVWXYZ", "ABCDEFGH", "JKLMNPQR", "STUVWXYZ"]

  /** Row letters of the 100-km square; odd zone sets start five letters later. */
  const RowLetters: seq<string> := ["ABCDEFGHJKLMNPQRSTUV", "FGHJKLMNPQRSTUVABCDE"]

  function Abs(x: real): (a: real)
    ensures a >= 0.0 && (a == x || a == -x)
  {
    if x < 0.0 then -x else x
  }

  // ---------------------------------------------------------------- latitude band

  /** `Math.floor((lat + 80) / 8)`, before clamping. */
  function BandIndex(lat: real): int {
    ((lat + 80.0) / 8.0).Floor
  }

  /** `Math.min(Math.max(i, lo), hi)`. */
  function Clamp(i: int, lo: int, hi: int): (r: int)
    requires lo <= hi
    ensures lo <= r <= hi
    ensures lo <= i <= hi ==> r == i
  {
    if i < lo then lo else if i > hi then hi else i
  }

  /** `getLatBand`: the band letter of a latitude; indices outside the table are clamped. */
  function LatBand(lat: real): (c: char)
    ensures c in Bands
  {
    Bands[Clamp(BandIndex(lat), 0, |Bands| - 1)]
  }

  /** Band k below the top one covers [-80 + 8k, -72 + 8k); everything from 72 up, including
      84 and the clamped index 20, is X; everything below -72 is C. */
  lemma LatBandRanges(lat: real, k: int)
    ensures 0 <= k < 19 && -80.0 + 8.0 * k as real <= lat < -72.0 + 8.0 * k as real
            ==> LatBand(lat) == Bands[k]
    ensures lat >= 72.0 ==> LatBand(lat) == 'X'
    ensures lat < -72.0 ==> LatBand(lat) == 'C'
  {
    var q := (lat + 80.0) / 8.0;
    assert q.Floor as real <= q < q.Floor as real + 1.0;
  }

  // ---------------------------------------------------------------- zone number

  /** `Math.floor((lng + 180) / 6) + 1`. */
  function ZoneNumber(lng: real): int {
    ((lng + 180.0) / 6.0).Floor + 1
  }

  /** Longitudes in [-180, 180) fall in zones 1 to 60, six degrees each; 180 itself gives 61. */
  lemma ZoneNumberRange(lng: real)
    ensures -180.0 <= lng < 180.0 ==> 1 <= ZoneNumber(lng) <= 60
    ensures -180.0 <= lng < 180.0 ==>
      -180.0 + 6.0 * (ZoneNumber(lng) - 1) as real <= lng < -174.0 + 6.0 * (ZoneNumber(lng) - 1) as real
    ensures lng == 180.0 ==> ZoneNumber(lng) == 61
  {
    var q := (lng + 180.0) / 6.0;
    assert q.Floor as real <= q < q.Floor as real + 1.0;
  }

  // ---------------------------------------------------------------- 100-km square

  /** `alphabet[i] || 'A'`: an index outside the string reads `undefined`, replaced by 'A'. */
  function LetterOr(alphabet: string, i: int): (c: char)
    ensures c == 'A' || c in alphabet
    ensures 0 <= i < |alphabet| ==> c == alphabet[i]
  {
    if 0 <= i < |alphabet| then alphabet[i] else 'A'
  }

  /** `(zoneNumber - 1) % 6`, which is negative for most zones below 1. */
  function ZoneSet(zone: int): int {
    RemInt(zone - 1, 6)
  }

  /** The column of the 100-km square: `Math.floor(easting / 100000) - 1`. */
  function Column(easting: real): int {
    (easting / 100000.0).Floor - 1
  }

  /** The row of the 100-km square: `Math.floor(northing % 2000000 / 100000)`. */
  function Row(northing: real): int {
    (Rem(northing, 2000000.0) / 100000.0).Floor
  }

  /** `get100kId`.  `None` is the TypeError thrown when the zone set is negative, because
      `colLetters[setParm]` is then undefined and cannot be indexed. */
  function Get100kId(easting: real, northing: real, zone: int): (id: Option<string>)
  {
    var zs := ZoneSet(zone);
    if zs < 0 then None
    else Some([LetterOr(ColumnLetters[zs], Column(easting)), LetterOr(RowLetters[zs % 2], Row(northing))])
  }

  /** The square identifier exists exactly for zones whose set index is not negative (every
      zone from 1 up, and below 1 only those with zone - 1 a multiple of 6); it is two
      letters, the column from the zone set's alphabet at `Column(easting)` and the row from
      the parity alphabet at `Row(northing)`, each replaced by 'A' when out of range. */
  lemma Get100kIdSpec(easting: real, northing: real, zone: int)
    ensures Get100kId(easting, northing, zone).Some? <==> (zone >= 1 || (zone - 1) % 6 == 0)
    ensures zone >= 1 ==>
      var zs := (zone - 1) % 6;
      var id := Get100kId(easting, northing, zone).value;
      && |id| == 2
      && (0 <= Column(easting) < 8 ==> id[0] == ColumnLetters[zs][Column(easting)])
      && (!(0 <= Column(easting) < 8) ==> id[0] == 'A')
      && (0 <= Row(northing) < 20 ==> id[1] == RowLetters[zs % 2][Row(northing)])
      && (!(0 <= Row(northing) < 20) ==> id[1] == 'A')
  {
    if zone < 1 {
      var a := zone - 1;
      assert ZoneSet(zone) == -((-a) % 6);
      assert (-a) % 6 == 0 <==> a % 6 == 0;
    }
  }

  /** Eastings from 100 000 up to (not including) 900 000 metres never hit the 'A' fallback
      in the column letter, and a non-negative northing never hits it in the row letter. */
  lemma NoLetterFallback(easting: real, northing: real)
    ensures 100000.0 <= easting < 900000.0 ==> 0 <= Column(easting) < 8
    ensures northing >= 0.0 ==> 0 <= Row(northing) < 20
  {
    var q := easting / 100000.0;
    assert q.Floor as real <= q < q.Floor as real + 1.0;
    var r := Rem(northing, 2000000.0) / 100000.0;
    assert r.Floor as real <= r < r.Floor as real + 1.0;
  }

  /** Row letters repeat every 2 000 km of northing, column and row letters every six zones. */
  lemma Get100kIdPeriodic(easting: real, northing: real, zone: int, k: nat)
    requires northing >= 0.0 && zone >= 1
    ensures Get100kId(easting, northing + k as real * 2000000.0, zone) == Get100kId(easting, northing, zone)
    ensures Get100kId(easting, northing, zone + 6 * k) == Get100kId(easting, northing, zone)
  {
    RemPeriodic(northing, 2000000.0, k);
    assert Row(northing + k as real * 2000000.0) == Row(northing);
    ZoneSetPeriodic(zone, k);
  }

  lemma {:induction false} ZoneSetPeriodic(zone: int, k: nat)
    requires zone >= 1
    ensures ZoneSet(zone + 6 * k) == ZoneSet(zone)
  {
    if k > 0 {
      ZoneSetPeriodic(zone, k - 1);
      assert zone + 6 * k - 1 == (zone + 6 * (k - 1) - 1) + 6;
    }
  }

  // ---------------------------------------------------------------- digits within the square

  /** `String(Math.floor(v % 100000)).padStart(5, '0').substring(0, 5)`. */
  function FiveDigits(v: real): (s: string)
    ensures |s| == 5
  {
    var p := PadStart(IntToString(Rem(v, 100000.0).Floor), 5, '0');
    p[..5]
  }

  /** For a non-negative value the field is exactly the metres within the 100-km square,
      zero-padded to five decimal digits; adding whole 100-km units does not change it. */
  lemma FiveDigitsValue(v: real)
    requires v >= 0.0
    ensures AllDigits(FiveDigits(v))
    ensures DigitsValue(FiveDigits(v)) == Rem(v, 100000.0).Floor
    ensures 0 <= Rem(v, 100000.0).Floor < 100000
  {
    var n := Rem(v, 100000.0).Floor;
    assert 0 <= n < Pow10(5);
    NatDigitsLength(n, 5);
    PaddedDigitsValue(n, 5);
    var p := PadStart(NatDigits(n), 5, '0');
    assert p[..5] == p;
  }

  // ---------------------------------------------------------------- the designator

  /** The fallback text `lat.toFixed(4)°N|S |lng|.toFixed(4)°E|W`: the latitude keeps its sign
      while the longitude is printed as an absolute value. */
  function DecimalFallback(lat: real, lng: real): string {
    ToFixed(lat, 4) + FallbackTail(lat, lng)
  }

  /** What follows the latitude's digits in the fallback text. */
  function FallbackTail(lat: real, lng: real): string {
    "°" + [if lat >= 0.0 then 'N' else 'S'] + " " + ToFixed(Abs(lng), 4) + "°" + [if lng >= 0.0 then 'E' else 'W']
  }

  /** The grid text `<zone><band> <square> <easting5> <northing5>`. */
  function GridText(zone: int, band: char, square: string, easting: real, northing: real): string {
    IntToString(zone) + [band] + " " + square + " " + FiveDigits(easting) + " " + FiveDigits(northing)
  }

  /** The northing used for lettering: 10 000 000 m is added south of the equator. */
  function GridNorthing(lat: real, northing: real): real {
    if lat < 0.0 then northing + 10000000.0 else northing
  }

  /** `latLngToMGRS`.  `None` is the TypeError `get100kId` throws for a negative zone set. */
  function LatLngToMgrs(project: Projection, lat: real, lng: real): (r: Option<string>)
  {
    if lat < -80.0 || lat > 84.0 then Some(DecimalFallback(lat, lng))
    else
      var zone := ZoneNumber(lng);
      var band := LatBand(lat);
      var (easting, northing0) := project(lat, lng, zone);
      var northing := GridNorthing(lat, northing0);
      match Get100kId(easting, northing, zone)
      case None => None
      case Some(square) => Some(GridText(zone, band, square, easting, northing))
  }

  /** The five-character fields hold only digits and possibly a minus sign. */
  lemma FiveDigitsNumberText(v: real)
    ensures NumberText(FiveDigits(v))
  {
    var n := Rem(v, 100000.0).Floor;
    IntToStringChars(n);
    var p := PadStart(IntToString(n), 5, '0');
    assert forall i :: 0 <= i < |p| ==> IsDigit(p[i]) || p[i] == '-';
  }

  /** The grid text never contains a degree sign. */
  lemma GridTextHasNoDegreeSign(zone: int, band: char, square: string, easting: real, northing: real)
    requires band != '°' && '°' !in square
    ensures '°' !in GridText(zone, band, square, easting, northing)
  {
    var z := IntToString(zone);
    var e := FiveDigits(easting);
    var n := FiveDigits(northing);
    assert '°' !in z by {
      IntToStringChars(zone);
      NotInNumberText('°', z);
    }
    assert '°' !in e by {
      FiveDigitsNumberText(easting);
      NotInNumberText('°', e);
    }
    assert '°' !in n by {
      FiveDigitsNumberText(northing);
      NotInNumberText('°', n);
    }
    assert GridText(zone, band, square, easting, northing) == z + [band] + " " + square + " " + e + " " + n;
  }

  /** The decimal fallback always carries a degree sign, right after the latitude. */
  lemma FallbackHasDegreeSign(lat: real, lng: real)
    ensures '°' in DecimalFallback(lat, lng)
  {
    var a := ToFixed(lat, 4);
    assert DecimalFallback(lat, lng)[|a|] == '°';
  }

  /** The result is the decimal fallback exactly when the latitude is below -80 or above 84
      (so -80 and 84 themselves take the grid path); the output contains a degree sign
      exactly then. */
  lemma FallbackExactly(project: Projection, lat: real, lng: real)
    ensures (LatLngToMgrs(project, lat, lng) == Some(DecimalFallback(lat, lng))) <==> (lat < -80.0 || lat > 84.0)
    ensures LatLngToMgrs(project, lat, lng).Some? ==>
      ('°' in LatLngToMgrs(project, lat, lng).value <==> (lat < -80.0 || lat > 84.0))
  {
    FallbackHasDegreeSign(lat, lng);
    if !(lat < -80.0 || lat > 84.0) {
      GridPathHasNoDegreeSign(project, lat, lng);
    }
  }

  lemma GridPathHasNoDegreeSign(project: Projection, lat: real, lng: real)
    requires -80.0 <= lat <= 84.0
    ensures LatLngToMgrs(project, lat, lng).Some? ==> '°' !in LatLngToMgrs(project, lat, lng).value
  {
    var zone := ZoneNumber(lng);
    var (easting, northing0) := project(lat, lng, zone);
    var northing := GridNorthing(lat, northing0);
    var id := Get100kId(easting, northing, zone);
    if id.Some? {
      var zs := ZoneSet(zone);
      var square := id.value;
      assert '°' !in square by {
        assert '°' !in ColumnLetters[zs] && '°' !in RowLetters[zs % 2];
        assert square == [LetterOr(ColumnLetters[zs], Column(easting)), LetterOr(RowLetters[zs % 2], Row(northing))];
      }
      assert LatBand(lat) != '°' by {
        assert '°' !in Bands;
      }
      GridTextHasNoDegreeSign(zone, LatBand(lat), square, easting, northing);
    }
  }

  /** In the fallback text the only minus sign is the latitude's: a '-' appears exactly when
      the latitude is negative, and the hemisphere letters follow the signs. */
  lemma FallbackSigns(lat: real, lng: real)
    ensures var t := DecimalFallback(lat, lng);
      && ('-' in t <==> lat < 0.0)
      && (t[0] == '-' <==> lat < 0.0)
      && t[|t| - 1] == (if lng >= 0.0 then 'E' else 'W')
      && ('N' in t <==> lat >= 0.0) && ('S' in t <==> lat < 0.0)
  {
    var a := ToFixed(lat, 4);
    ToFixedSign(lat, 4);
    NotInNumberText('N', a);
    NotInNumberText('S', a);
    FallbackTailChars(lat, lng);
  }

  lemma FallbackTailChars(lat: real, lng: real)
    ensures var rest := FallbackTail(lat, lng);
      && '-' !in rest
      && ('N' in rest <==> lat >= 0.0) && ('S' in rest <==> lat < 0.0)
      && rest[|rest| - 1] == (if lng >= 0.0 then 'E' else 'W')
  {
    var b := ToFixed(Abs(lng), 4);
    ToFixedSign(Abs(lng), 4);
    NotInNumberText('N', b);
    NotInNumberText('S', b);
    TailTemplate(if lat >= 0.0 then 'N' else 'S', b, if lng >= 0.0 then 'E' else 'W');
  }

  lemma TailTemplate(h: char, b: string, e: char)
    requires h == 'N' || h == 'S'
    requires e == 'E' || e == 'W'
    requires '-' !in b && 'N' !in b && 'S' !in b
    ensures var t := "°" + [h] + " " + b + "°" + [e];
      && '-' !in t
      && ('N' in t <==> h == 'N') && ('S' in t <==> h == 'S')
      && t[|t| - 1] == e
  {
    var t := "°" + [h] + " " + b + "°" + [e];
    assert t[1] == h;
    forall i | 0 <= i < |t|
      ensures t[i] != '-'
      ensures t[i] == 'N' ==> h == 'N'
      ensures t[i] == 'S' ==> h == 'S'
    {
      if 3 <= i < 3 + |b| {
        assert t[i] == b[i - 3];
      }
    }
  }

  /** On the grid path, at latitudes from -80 to 84 and longitudes from -180 on, the output
      is `<zone><band> <2 letters> <5 chars> <5 chars>` with the zone from `ZoneNumber`, the
      band from `LatBand` and the square identifier from `Get100kId` on the northing that
      `GridNorthing` adjusts; when easting and adjusted northing are not negative both numeric
      fields are the five-digit metres within the square. */
  lemma GridShape(project: Projection, lat: real, lng: real)
    requires -80.0 <= lat <= 84.0 && lng >= -180.0
    ensures var zone := ZoneNumber(lng);
      var (easting, northing0) := project(lat, lng, zone);
      var northing := GridNorthing(lat, northing0);
      && zone >= 1
      && Get100kId(easting, northing, zone).Some?
      && var square := Get100kId(easting, northing, zone).value;
      && |square| == 2
      && LatLngToMgrs(project, lat, lng)
         == Some(IntToString(zone) + [LatBand(lat)] + " " + square + " " + FiveDigits(easting) + " " + FiveDigits(northing))
      && (easting >= 0.0 ==> AllDigits(FiveDigits(easting)))
      && (northing >= 0.0 ==> AllDigits(FiveDigits(northing)))
  {
    var zone := ZoneNumber(lng);
    var q := (lng + 180.0) / 6.0;
    assert q >= 0.0;
    assert zone >= 1;
    var (easting, northing0) := project(lat, lng, zone);
    var northing := GridNorthing(lat, northing0);
    Get100kIdSpec(easting, northing, zone);
    if easting >= 0.0 { FiveDigitsValue(easting); }
    if northing >= 0.0 { FiveDigitsValue(northing); }
  }

  /** South of the equator the false northing of 10 000 000 m is what keeps a series northing
      in [-10 000 000, 0) inside the row table and the northing field numeric.  North of it
      nothing is added; and for a northing already non-negative the addition would change
      neither the row letter nor the digits, 10 000 000 being a whole number of 2 000-km
      row cycles. */
  lemma SouthernFalseNorthing(lat: real, northing0: real)
    ensures lat >= 0.0 ==> GridNorthing(lat, northing0) == northing0
    ensures lat < 0.0 && -10000000.0 <= northing0 ==>
      var n := GridNorthing(lat, northing0);
      0 <= Row(n) < 20 && AllDigits(FiveDigits(n))
    ensures northing0 >= 0.0 ==>
      Row(northing0 + 10000000.0) == Row(northing0) && FiveDigits(northing0 + 10000000.0) == FiveDigits(northing0)
  {
    if lat < 0.0 && -10000000.0 <= northing0 {
      ShiftedNorthingInRange(northing0);
    }
    if northing0 >= 0.0 {
      FalseNorthingInvisible(northing0);
    }
  }

  lemma ShiftedNorthingInRange(northing0: real)
    requires -10000000.0 <= northing0
    ensures 0 <= Row(northing0 + 10000000.0) < 20 && AllDigits(FiveDigits(northing0 + 10000000.0))
  {
    NoLetterFallback(0.0, northing0 + 10000000.0);
    FiveDigitsValue(northing0 + 10000000.0);
  }

  lemma FalseNorthingInvisible(northing0: real)
    requires northing0 >= 0.0
    ensures Row(northing0 + 10000000.0) == Row(northing0)
    ensures FiveDigits(northing0 + 10000000.0) == FiveDigits(northing0)
  {
    var n := northing0 + 10000000.0;
    assert Rem(n, 2000000.0) == Rem(northing0, 2000000.0) by {
      RemPeriodic(northing0, 2000000.0, 5);
      assert northing0 + 5 as real * 2000000.0 == n;
    }
    assert Rem(n, 100000.0) == Rem(northing0, 100000.0) by {
      RemPeriodic(northing0, 100000.0, 100);
      assert northing0 + 100 as real * 100000.0 == n;
    }
  }

  /** With longitudes from -180 on the converter never throws. */
  lemma NeverThrows(project: Projection, lat: real, lng: real)
    requires lng >= -180.0
    ensures LatLngToMgrs(project, lat, lng).Some?
  {
    if -80.0 <= lat <= 84.0 {
      GridShape(project, lat, lng);
    }
  }

  /** The decimal fallback for (-85, 10) prints the latitude with its minus sign. */
  lemma FallbackExample(project: Projection)
    ensures LatLngToMgrs(project, -85.0, 10.0) == Some("-85.0000°S 10.0000°E")
  {
    LatitudeText();
    LongitudeText();
    assert Abs(10.0) == 10.0;
    assert LatLngToMgrs(project, -85.0, 10.0) == Some(DecimalFallback(-85.0, 10.0));
    assert FallbackTail(-85.0, 10.0) == "°" + "S" + " " + "10.0000" + "°" + "E";
    assert "-85.0000" + ("°" + "S" + " " + "10.0000" + "°" + "E") == "-85.0000°S 10.0000°E";
  }

  lemma LatitudeText()
    ensures ToFixed(-85.0, 4) == "-85.0000"
  {
    assert Pow10(4) == 10000;
    assert RoundHalfUp(85.0 * 10000.0) == 850000;
    assert NatDigits(850000) == "850000" by {
      assert NatDigits(8) == "8";
      assert NatDigits(85) == "85";
      assert NatDigits(850) == "850";
      assert NatDigits(8500) == "8500";
      assert NatDigits(85000) == "85000";
    }
    assert Units(85.0, 4) == 850000;
    FixedDigitsFrom(85.0, 4, 850000, "850000");
  }

  lemma LongitudeText()
    ensures ToFixed(10.0, 4) == "10.0000"
  {
    assert Pow10(4) == 10000;
    assert RoundHalfUp(10.0 * 10000.0) == 100000;
    assert NatDigits(100000) == "100000" by {
      assert NatDigits(1) == "1";
      assert NatDigits(10) == "10";
      assert NatDigits(100) == "100";
      assert NatDigits(1000) == "1000";
      assert NatDigits(10000) == "10000";
    }
    assert Units(10.0, 4) == 100000;
    FixedDigitsFrom(10.0, 4, 100000, "100000");
  }

  // ---------------------------------------------------------------- degrees and minutes

  /** `formatLatLng`: `<deg>°<min.mm>'<N|S> <deg>°<min.mm>'<E|W>`, both parts unsigned. */
  function FormatLatLng(lat: real, lng: real): string {
    DegreesMinutes(lat) + "'" + [if lat >= 0.0 then 'N' else 'S'] + " "
    + DegreesMinutes(lng) + "'" + [if lng >= 0.0 then 'E' else 'W']
  }

  /** `${Math.floor(|x|)}°${((|x| - deg) * 60).toFixed(2)}`. */
  function DegreesMinutes(x: real): string {
    DegreesText(WholeDegrees(x), MinutesOf(x))
  }

  /** `Math.floor(|x|)`: the whole degrees. */
  function WholeDegrees(x: real): nat {
    Abs(x).Floor
  }

  /** `(|x| - deg) * 60`: the minutes past the whole degrees. */
  function MinutesOf(x: real): real {
    (Abs(x) - WholeDegrees(x) as real) * 60.0
  }

  /** The template `${deg}°${minutes.toFixed(2)}`. */
  function DegreesText(deg: int, minutes: real): string {
    IntToString(deg) + "°" + ToFixed(minutes, 2)
  }

  /** The minutes `DegreesMinutes` prints, counted in hundredths: the whole number `toFixed(2)`
      rounds the minutes to. */
  function PrintedMinuteHundredths(x: real): (h: nat)
    ensures h <= 6000
  {
    var m := MinutesOf(x);
    assert 0.0 <= m < 60.0;
    RoundHalfUp(m * 100.0)
  }

  /** `DegreesMinutes` prints the whole degrees, then the minutes as `toFixed(2)` of a value in
      [0, 60), rounded to `PrintedMinuteHundredths`. */
  lemma DegreesMinutesShape(x: real)
    ensures var deg := Abs(x).Floor;
      var m := (Abs(x) - deg as real) * 60.0;
      && deg >= 0 && 0.0 <= m < 60.0
      && DegreesMinutes(x) == NatDigits(deg) + "°" + FixedDigits(m, 2)
      && Units(m, 2) == PrintedMinuteHundredths(x)
  {
  }

  /** `DegreesMinutes` prints magnitudes: no minus sign. */
  lemma DegreesMinutesUnsigned(x: real)
    ensures '-' !in DegreesMinutes(x)
  {
    var m := MinutesOf(x);
    var d := IntToString(WholeDegrees(x));
    var f := ToFixed(m, 2);
    assert '-' !in d by {
      NotInDigits('-', d);
    }
    assert '-' !in f by {
      ToFixedSign(m, 2);
    }
    assert DegreesMinutes(x) == d + "°" + f;
  }

  /** The hemisphere letters follow the signs of the coordinates, and no minus sign is
      printed: `formatLatLng` writes magnitudes only. */
  lemma FormatLatLngSigns(lat: real, lng: real)
    ensures var t := FormatLatLng(lat, lng);
      && '-' !in t
      && t[|t| - 1] == (if lng >= 0.0 then 'E' else 'W')
      && (t[|DegreesMinutes(lat)| + 1] == 'N' <==> lat >= 0.0)
      && (t[|DegreesMinutes(lat)| + 1] == 'S' <==> lat < 0.0)
  {
    DegreesMinutesUnsigned(lat);
    DegreesMinutesUnsigned(lng);
    HemisphereTemplate(DegreesMinutes(lat), if lat >= 0.0 then 'N' else 'S',
                       DegreesMinutes(lng), if lng >= 0.0 then 'E' else 'W');
  }

  /** In `<a>'<h> <b>'<e>` with no minus sign in `a` or `b`: no minus sign at all, `h` right
      after `a` and its apostrophe, and `e` last. */
  lemma HemisphereTemplate(a: string, h: char, b: string, e: char)
    requires '-' !in a && '-' !in b && h != '-' && e != '-'
    ensures var t := a + "'" + [h] + " " + b + "'" + [e];
      '-' !in t && t[|t| - 1] == e && t[|a| + 1] == h
  {
  }

  /** The minutes field can print 60: at 0.99999 degrees the minutes are 59.9994, which
      `toFixed(2)` rounds up to "60.00" without carrying into the degrees. */
  lemma MinutesReachSixty()
    ensures PrintedMinuteHundredths(0.99999) == 6000
    ensures DegreesMinutes(0.99999) == "0°60.00"
  {
    assert WholeDegrees(0.99999) == 0;
    assert MinutesOf(0.99999) == 59.9994;
    assert Pow10(2) == 100;
    assert RoundHalfUp(59.9994 * 100.0) == 6000;
    assert NatDigits(6000) == "6000" by {
      assert NatDigits(6) == "6";
      assert NatDigits(60) == "60";
      assert NatDigits(600) == "600";
    }
    assert Units(59.9994, 2) == 6000;
    FixedDigitsFrom(59.9994, 2, 6000, "6000");
    assert IntToString(0) == "0";
  }

  /** `formatLatLng` with the rounding done once on the whole value, so that minutes that round
      up to 60 carry into the degrees. */
  function FormatLatLngCarried(lat: real, lng: real): string {
    DegreesMinutesCarried(lat) + "'" + [if lat >= 0.0 then 'N' else 'S'] + " "
    + DegreesMinutesCarried(lng) + "'" + [if lng >= 0.0 then 'E' else 'W']
  }

  /** Degrees and minutes from `|x|` rounded once to hundredths of a minute. */
  function DegreesMinutesCarried(x: real): string {
    var t := RoundHalfUp(Abs(x) * 6000.0);
    DegreesText(t / 6000, (t % 6000) as real / 100.0)
  }

  /** The carried form never prints 60 minutes, prints exactly the hundredths it computed, and
      is within half a hundredth of a minute of the true value. */
  lemma DegreesMinutesCarriedSpec(x: real)
    ensures var t := RoundHalfUp(Abs(x) * 6000.0);
      var deg := t / 6000;
      var h := t % 6000;
      && 0 <= h < 6000
      && Units(h as real / 100.0, 2) == h
      && Abs(x) * 6000.0 - 0.5 < (deg * 6000 + h) as real <= Abs(x) * 6000.0 + 0.5
  {
    var t := RoundHalfUp(Abs(x) * 6000.0);
    var h := t % 6000;
    assert Pow10(2) == 100;
    assert h as real / 100.0 * 100.0 == h as real;
    assert RoundHalfUp(h as real) == h;
    assert t / 6000 * 6000 + h == t;
  }

  /** Wherever the printed minutes stay below 60, the carried form prints exactly what
      `formatLatLng` prints: the correction changes only the overflowing case. */
  lemma CarriedAgreesBelowSixty(x: real)
    requires PrintedMinuteHundredths(x) < 6000
    ensures DegreesMinutesCarried(x) == DegreesMinutes(x)
  {
    CarriedParts(x);
    var t := RoundHalfUp(Abs(x) * 6000.0);
    var deg := WholeDegrees(x);
    var carried := (t % 6000) as real / 100.0;
    var minutes := MinutesOf(x);
    assert ToFixed(carried, 2) == ToFixed(minutes, 2) by {
      assert carried >= 0.0 && minutes >= 0.0;
      assert FixedDigits(carried, 2) == FixedDigits(minutes, 2);
    }
    SameDegreesText(t / 6000, carried, deg, minutes);
  }

  /** Below 60 printed minutes, the carried rounding yields the same whole degrees and the
      same count of hundredths of a minute. */
  lemma CarriedParts(x: real)
    requires PrintedMinuteHundredths(x) < 6000
    ensures var t := RoundHalfUp(Abs(x) * 6000.0);
      && t / 6000 == WholeDegrees(x)
      && Units((t % 6000) as real / 100.0, 2) == Units(MinutesOf(x), 2)
  {
    var a := Abs(x);
    var deg := WholeDegrees(x);
    var m := MinutesOf(x);
    var h0 := PrintedMinuteHundredths(x);
    var t := RoundHalfUp(a * 6000.0);
    assert t / 6000 == deg && t % 6000 == h0 by {
      WholeRounding(a, deg, m, h0, t);
    }
    assert Pow10(2) == 100;
    assert Units(m, 2) == h0;
    assert Units(h0 as real / 100.0, 2) == h0 by {
      assert h0 as real / 100.0 * 100.0 == h0 as real;
      assert RoundHalfUp(h0 as real) == h0;
    }
  }

  lemma SameDegreesText(d1: int, m1: real, d2: int, m2: real)
    requires d1 == d2 && ToFixed(m1, 2) == ToFixed(m2, 2)
    ensures DegreesText(d1, m1) == DegreesText(d2, m2)
  {
  }

  /** Rounding `a` degrees to hundredths of a minute in one step gives the whole degrees
      followed by the minutes' own rounding, as long as that stays below 60 minutes. */
  lemma WholeRounding(a: real, deg: int, m: real, h0: nat, t: nat)
    requires a >= 0.0 && deg == a.Floor && m == (a - deg as real) * 60.0
    requires m >= 0.0 && h0 == RoundHalfUp(m * 100.0) && h0 < 6000
    requires t == RoundHalfUp(a * 6000.0)
    ensures t / 6000 == deg && t % 6000 == h0
  {
    var k := deg * 6000;
    var v := a * 6000.0;
    assert m * 100.0 == v - k as real;
    RoundHalfUpShift(v, k);
    assert t == h0 + k;
  }

  /** Rounding commutes with subtracting a whole number. */
  lemma RoundHalfUpShift(v: real, k: int)
    requires 0 <= k && v - k as real >= 0.0
    ensures RoundHalfUp(v - k as real) == RoundHalfUp(v) - k
  {
  }

  /** At 0.99999 degrees the carried form prints one degree and no minutes. */
  lemma CarriedExample()
    ensures DegreesMinutesCarried(0.99999) == "1°0.00"
  {
    assert RoundHalfUp(0.99999 * 6000.0) == 6000;
    assert Pow10(2) == 100;
    assert RoundHalfUp(0.0 / 100.0 * 100.0) == 0;
    assert NatDigits(0) == "0";
    assert PadStart("0", 3, '0') == "000";
    assert FixedDigits(0.0, 2) == "0.00";
    assert NatDigits(1) == "1";
  }

  /** Austin, Texas: 30.2747 N, 97.7403 W. */
  lemma FormatLatLngExample(lat: real, lng: real)
    requires lat == 30.2747 && lng == -97.7403
    ensures FormatLatLng(lat, lng) == "30°16.48'N 97°44.42'W"
  {
    LatitudeMinutes();
    LongitudeMinutes();
    FormatFromParts(lat, lng, "30°16.48", "97°44.42");
    AustinText();
  }

  lemma AustinText()
    ensures "30°16.48" + "'" + "N" + " " + "97°44.42" + "'" + "W" == "30°16.48'N 97°44.42'W"
  {
  }

  lemma FormatFromParts(lat: real, lng: real, a: string, b: string)
    requires DegreesMinutes(lat) == a && DegreesMinutes(lng) == b
    ensures FormatLatLng(lat, lng)
      == a + "'" + [if lat >= 0.0 then 'N' else 'S'] + " " + b + "'" + [if lng >= 0.0 then 'E' else 'W']
  {
  }

  lemma LatitudeMinutes()
    ensures DegreesMinutes(30.2747) == "30°16.48"
  {
    assert WholeDegrees(30.2747) == 30;
    assert MinutesOf(30.2747) == 16.482;
    DegreesMinutesParts(30.2747, 30, 16.482);
    assert Units(16.482, 2) == 1648 by {
      assert Pow10(2) == 100;
    }
    assert NatDigits(1648) == "1648" by {
      assert NatDigits(1) == "1";
      assert NatDigits(16) == "16";
      assert NatDigits(164) == "164";
    }
    assert NatDigits(30) == "30" by {
      assert NatDigits(3) == "3";
    }
    DegreesTextFrom(30, 16.482, 1648, "1648", "30");
  }

  lemma LongitudeMinutes()
    ensures DegreesMinutes(-97.7403) == "97°44.42"
  {
    assert Abs(-97.7403) == 97.7403;
    assert WholeDegrees(-97.7403) == 97;
    assert MinutesOf(-97.7403) == 44.418;
    DegreesMinutesParts(-97.7403, 97, 44.418);
    assert Units(44.418, 2) == 4442 by {
      assert Pow10(2) == 100;
    }
    assert NatDigits(4442) == "4442" by {
      assert NatDigits(4) == "4";
      assert NatDigits(44) == "44";
      assert NatDigits(444) == "444";
    }
    assert NatDigits(97) == "97" by {
      assert NatDigits(9) == "9";
    }
    DegreesTextFrom(97, 44.418, 4442, "4442", "97");
  }

  lemma DegreesMinutesParts(x: real, deg: int, minutes: real)
    requires WholeDegrees(x) == deg && MinutesOf(x) == minutes
    ensures DegreesMinutes(x) == DegreesText(deg, minutes)
  {
  }

  /** The template filled with whole degrees and minutes whose hundredths have at least
      three digits. */
  lemma DegreesTextFrom(deg: nat, minutes: real, n: nat, digits: string, degDigits: string)
    requires minutes >= 0.0 && 2 < |digits| && Units(minutes, 2) == n && NatDigits(n) == digits
    requires NatDigits(deg) == degDigits
    ensures DegreesText(deg, minutes) == degDigits + "°" + (digits[..|digits| - 2] + "." + digits[|digits| - 2..])
  {
    FixedDigitsFrom(minutes, 2, n, digits);
    assert ToFixed(minutes, 2) == FixedDigits(minutes, 2);
  }
}
