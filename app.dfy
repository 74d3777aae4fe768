/** The application shell (src/App.tsx): the webcam dataset sanitiser, and the top-level state
    with the handlers that change it: camera moves, layer toggles, layer counts, city and
    landmark selection, the CCTV selection and the keyboard shortcuts. */
module App {
  import opened Wrappers
  import opened JsRuntime
  import opened Constants
  import opened JsonValue

  // ================================================================ webcam dataset


  /** A webcam as the CCTV layer receives it. */
  datatype CameraPoint = CameraPoint(
    id: string, name: string, lat: real, lng: real,
    embedUrl: Option<string>, pageUrl: Option<string>, thumbnail: Option<string>)


  /** `String(item?.key)`, where `undefined` prints as "undefined". */
  function FieldString(item: Json, key: string, show: NumberText): string {
    var v := Get(item, key);
    if v.None? then "undefined" else JsString(v.value, show)
  }

  /** `Number.parseFloat(String(item?.key))` when finite. */
  function Coordinate(item: Json, key: string, show: NumberText): Option<real> {
    ParseFloat(FieldString(item, key, show))
  }

  /** The two HTML entities the dataset uses, `&#x27;` replaced first and `&amp;` second. */
  function Unescape(s: string): string {
    ReplaceAll(ReplaceAll(s, "&#x27;", "'"), "&amp;", "&")
  }

  /** `item?.key ?? fallback` printed: absent or null fields take the fallback. */
  function StringOr(item: Json, key: string, fallback: string, show: NumberText): string {
    var v := Get(item, key);
    if v.None? || v.value.JNull? then fallback else JsString(v.value, show)
  }

  /** `typeof item?.key === 'string' ? item.key : undefined`. */
  function StringField(item: Json, key: string): Option<string> {
    var v := Get(item, key);
    if v.Some? && v.value.JStr? then Some(v.value.s) else None
  }

  /** The mapping of one dataset entry; `None` is the `null` the filter removes. An entry
      is kept exactly when both coordinates are finite numbers, and it carries them. */
  function SanitizeEntry(item: Json, show: NumberText): (r: Option<CameraPoint>)
    ensures r.Some? <==> Coordinate(item, "lat", show).Some? && Coordinate(item, "lng", show).Some?
    ensures r.Some? ==>
      r.value.lat == Coordinate(item, "lat", show).value && r.value.lng == Coordinate(item, "lng", show).value
  {
    var lat := Coordinate(item, "lat", show);
    var lng := Coordinate(item, "lng", show);
    if lat.None? || lng.None? then None
    else
      var name := Unescape(StringOr(item, "name", "Web Camera", show));
      var fallbackId := name + "-" + show(lat.value) + "-" + show(lng.value);
      Some(CameraPoint(StringOr(item, "id", fallbackId, show), name, lat.value, lng.value,
                       StringField(item, "embedUrl"), StringField(item, "pageUrl"),
                       StringField(item, "thumbnail")))
  }

  /** `items.map(entry).filter(x => !!x)`. */
  function KeepMapped(items: seq<Json>, entry: Json -> Option<CameraPoint>): (r: seq<CameraPoint>)
    ensures |r| <= |items|
  {
    if items == [] then []
    else
      var e := entry(items[0]);
      (if e.Some? then [e.value] else []) + KeepMapped(items[1..], entry)
  }

  /** The dataset sanitiser: a JSON array is mapped and filtered, anything else gives []. */
  function SanitizeCameras(json: Json, show: NumberText): (r: seq<CameraPoint>)
    ensures !json.JArr? ==> r == []
  {
    if json.JArr? then KeepMapped(json.items, item => SanitizeEntry(item, show)) else []
  }

  /** Mapping and filtering works entry by entry: on a concatenation it gives the
      concatenation of the results, so the order of the input is kept. */
  lemma {:induction false} KeepMappedConcat(a: seq<Json>, b: seq<Json>, entry: Json -> Option<CameraPoint>)
    ensures KeepMapped(a + b, entry) == KeepMapped(a, entry) + KeepMapped(b, entry)
  {
    if a == [] {
      assert a + b == b;
    } else {
      var e := entry(a[0]);
      var head := if e.Some? then [e.value] else [];
      assert (a + b)[0] == a[0];
      assert (a + b)[1..] == a[1..] + b;
      assert KeepMapped(a + b, entry) == head + KeepMapped(a[1..] + b, entry);
      KeepMappedConcat(a[1..], b, entry);
      assert KeepMapped(a + b, entry) == head + (KeepMapped(a[1..], entry) + KeepMapped(b, entry));
    }
  }

  /** Every kept value is the mapping of some input entry. */
  lemma {:induction false} KeepMappedFromEntries(items: seq<Json>, entry: Json -> Option<CameraPoint>)
    ensures forall k :: 0 <= k < |KeepMapped(items, entry)| ==>
      exists i :: 0 <= i < |items| && entry(items[i]) == Some(KeepMapped(items, entry)[k])
  {
    if items != [] {
      KeepMappedFromEntries(items[1..], entry);
      var e := entry(items[0]);
      var head := if e.Some? then [e.value] else [];
      var t := KeepMapped(items[1..], entry);
      var r := KeepMapped(items, entry);
      assert r == head + t;
      forall k | 0 <= k < |r|
        ensures exists i :: 0 <= i < |items| && entry(items[i]) == Some(r[k])
      {
        if k < |head| {
          assert entry(items[0]) == Some(r[k]);
        } else {
          assert r[k] == t[k - |head|];
          var i :| 0 <= i < |items[1..]| && entry(items[1..][i]) == Some(t[k - |head|]);
          assert entry(items[i + 1]) == Some(r[k]);
        }
      }
    } else {
      assert KeepMapped(items, entry) == [];
    }
  }

  /** The sanitiser keeps every camera that has finite coordinates, in order, and drops
      the rest: on an array of one entry it gives that entry's camera or nothing. */
  lemma SanitizeOne(item: Json, show: NumberText)
    ensures SanitizeCameras(JArr([item]), show)
      == (if Coordinate(item, "lat", show).Some? && Coordinate(item, "lng", show).Some?
          then [SanitizeEntry(item, show).value] else [])
  {
    var entry := (j: Json) => SanitizeEntry(j, show);
    assert KeepMapped([item], entry) == (if entry(item).Some? then [entry(item).value] else []) + KeepMapped([], entry) by {
      assert [item][1..] == [];
    }
  }

  /** Coordinates that are missing, null, booleans or objects never parse: such entries
      are dropped. */
  lemma NonNumericCoordinateDropped(item: Json, show: NumberText)
    requires var v := Get(item, "lat"); v.None? || v.value.JNull? || v.value.JBool? || v.value.JObj?
    ensures SanitizeEntry(item, show).None?
  {
    var v := Get(item, "lat");
    var s := FieldString(item, "lat", show);
    assert s == "undefined" || s == "null" || s == "true" || s == "false" || s == "[object Object]";
    NoNumberIn(s);
  }

  /** None of the words JavaScript prints for undefined, null, booleans and objects starts
      with a number. */
  lemma NoNumberIn(s: string)
    requires s == "undefined" || s == "null" || s == "true" || s == "false" || s == "[object Object]"
    ensures ParseFloat(s) == None
  {
    ParseFloatNonNumeric(s);
  }

  /** A coordinate given as a JSON number is kept as that number whenever printing numbers
      and reading them back agree. */
  lemma NumericCoordinate(item: Json, key: string, show: NumberText)
    requires Get(item, key).Some? && Get(item, key).value.JNum?
    requires ParseFloat(show(Get(item, key).value.n)) == Some(Get(item, key).value.n)
    ensures Coordinate(item, key, show) == Some(Get(item, key).value.n)
  {
    assert FieldString(item, key, show) == show(Get(item, key).value.n);
  }

  /** `item?.key ?? fallback`: the fallback exactly for an absent or null field, the
      text itself for a string field. */
  lemma StringOrCases(item: Json, key: string, fallback: string, show: NumberText)
    ensures var v := Get(item, key);
      (v.None? || v.value.JNull?) ==> StringOr(item, key, fallback, show) == fallback
    ensures var v := Get(item, key);
      v.Some? && v.value.JStr? ==> StringOr(item, key, fallback, show) == v.value.s
  {
  }

  /** The fields of a kept entry, one by one, in terms of the raw entry. */
  lemma SanitizedFields(item: Json, show: NumberText)
    requires SanitizeEntry(item, show).Some?
    ensures var c := SanitizeEntry(item, show).value;
      c.name == Unescape(StringOr(item, "name", "Web Camera", show)) &&
      c.id == StringOr(item, "id", c.name + "-" + show(c.lat) + "-" + show(c.lng), show) &&
      c.embedUrl == StringField(item, "embedUrl") && c.pageUrl == StringField(item, "pageUrl") &&
      c.thumbnail == StringField(item, "thumbnail")
  {
  }

  /** A kept entry is named "Web Camera" when its name is absent or null, and carries its
      unescaped name when that is a string. */
  lemma SanitizedName(item: Json, show: NumberText)
    requires SanitizeEntry(item, show).Some?
    ensures var v := Get(item, "name");
      (v.None? || v.value.JNull?) ==> SanitizeEntry(item, show).value.name == "Web Camera"
    ensures var v := Get(item, "name");
      v.Some? && v.value.JStr? ==> SanitizeEntry(item, show).value.name == Unescape(v.value.s)
  {
    SanitizedFields(item, show);
    NameDefaults(item, show);
  }

  /** A kept entry without an id (absent or null) is identified by its name and its printed
      coordinates, `${name}-${lat}-${lng}`; a string id is kept as it is. */
  lemma SanitizedId(item: Json, show: NumberText)
    requires SanitizeEntry(item, show).Some?
    ensures var c := SanitizeEntry(item, show).value; var v := Get(item, "id");
      (v.None? || v.value.JNull?) ==> c.id == c.name + "-" + show(c.lat) + "-" + show(c.lng)
    ensures var v := Get(item, "id");
      v.Some? && v.value.JStr? ==> SanitizeEntry(item, show).value.id == v.value.s
  {
    SanitizedFields(item, show);
    var c := SanitizeEntry(item, show).value;
    StringOrCases(item, "id", c.name + "-" + show(c.lat) + "-" + show(c.lng), show);
  }

  /** Each link of a kept entry is present exactly when the raw field is a string, and is
      then that string. */
  lemma SanitizedUrls(item: Json, show: NumberText)
    requires SanitizeEntry(item, show).Some?
    ensures var c := SanitizeEntry(item, show).value; var v := Get(item, "embedUrl");
      c.embedUrl == if v.Some? && v.value.JStr? then Some(v.value.s) else None
    ensures var c := SanitizeEntry(item, show).value; var v := Get(item, "pageUrl");
      c.pageUrl == if v.Some? && v.value.JStr? then Some(v.value.s) else None
    ensures var c := SanitizeEntry(item, show).value; var v := Get(item, "thumbnail");
      c.thumbnail == if v.Some? && v.value.JStr? then Some(v.value.s) else None
  {
    SanitizedFields(item, show);
  }

  /** Names default to "Web Camera", a string name is unescaped, and a name without '&'
      is kept as it is. */
  lemma NameDefaults(item: Json, show: NumberText)
    ensures var v := Get(item, "name");
      (v.None? || v.value.JNull?) ==> Unescape(StringOr(item, "name", "Web Camera", show)) == "Web Camera"
    ensures var v := Get(item, "name");
      v.Some? && v.value.JStr? ==> Unescape(StringOr(item, "name", "Web Camera", show)) == Unescape(v.value.s)
    ensures var raw := StringOr(item, "name", "Web Camera", show);
      '&' !in raw ==> Unescape(raw) == raw
  {
    StringOrCases(item, "name", "Web Camera", show);
    NoAmpersandUnchanged("Web Camera");
    NoAmpersandUnchanged(StringOr(item, "name", "Web Camera", show));
  }

  lemma NoAmpersandUnchanged(s: string)
    ensures '&' !in s ==> Unescape(s) == s
  {
    if '&' !in s {
      PatternAbsent("&#x27;", s);
      ReplaceAllAbsent(s, "&#x27;", "'");
      PatternAbsent("&amp;", s);
      ReplaceAllAbsent(s, "&amp;", "&");
    }
  }

  /** A pattern starting with '&' does not occur in a string without '&'. */
  lemma PatternAbsent(pattern: string, s: string)
    requires pattern != [] && pattern[0] == '&' && '&' !in s
    ensures !Occurs(pattern, s)
  {
    forall i | 0 <= i <= |s| - |pattern|
      ensures !OccursAt(pattern, s, i)
    {
      assert s[i..i + |pattern|][0] == s[i];
    }
  }

  /** The entities are decoded in one order only: `&amp;#x27;` becomes `&#x27;`, not an
      apostrophe, while `&#x27;` and `&amp;` alone decode. */
  lemma UnescapeOrder()
    ensures Unescape("&amp;#x27;") == "&#x27;"
    ensures Unescape("&#x27;") == "'"
    ensures Unescape("&amp;") == "&"
  {
    UnescapeNested();
    UnescapeApostrophe();
    UnescapeAmpersand();
  }

  lemma UnescapeApostrophe()
    ensures Unescape("&#x27;") == "'"
  {
    assert ReplaceAll("&#x27;", "&#x27;", "'") == "'";
    assert ReplaceAll("'", "&amp;", "&") == "'";
  }

  lemma UnescapeAmpersand()
    ensures Unescape("&amp;") == "&"
  {
    assert ReplaceAll("&amp;", "&#x27;", "'") == "&amp;";
    assert ReplaceAll("&amp;", "&amp;", "&") == "&";
  }

  lemma UnescapeNested()
    ensures Unescape("&amp;#x27;") == "&#x27;"
  {
    ApostropheAbsent("&amp;#x27;");
    AmpersandDecoded("&amp;#x27;");
  }

  lemma ApostropheAbsent(s: string)
    requires s == "&amp;#x27;"
    ensures ReplaceAll(s, "&#x27;", "'") == s
  {
    assert s[..6] != "&#x27;" by { assert s[1] == 'a'; }
    PatternAbsent("&#x27;", s[1..]);
    ReplaceAllAbsent(s[1..], "&#x27;", "'");
    assert [s[0]] + s[1..] == s;
  }

  lemma AmpersandDecoded(s: string)
    requires s == "&amp;#x27;"
    ensures ReplaceAll(s, "&amp;", "&") == "&#x27;"
  {
    assert s[..5] == "&amp;";
    PatternAbsent("&amp;", s[5..]);
    ReplaceAllAbsent(s[5..], "&amp;", "&");
    assert "&" + s[5..] == "&#x27;";
  }

  // ================================================================ application state

  /** The six data layers. */
  datatype Layer = Satellites | Flights | Military | Traffic | Cctv | Earthquakes

  /** Which data layers are switched on. */
  datatype Layers = Layers(satellites: bool, flights: bool, military: bool,
                           traffic: bool, cctv: bool, earthquakes: bool)
  {
    function Get(l: Layer): bool {
      match l
      case Satellites => satellites
      case Flights => flights
      case Military => military
      case Traffic => traffic
      case Cctv => cctv
      case Earthquakes => earthquakes
    }

    /** `{ ...this, [l]: v }`: the named layer takes `v`, every other layer keeps its value. */
    function Set(l: Layer, v: bool): (r: Layers)
      ensures r.Get(l) == v
      ensures forall m :: m != l ==> r.Get(m) == Get(m)
    {
      match l
      case Satellites => this.(satellites := v)
      case Flights => this.(flights := v)
      case Military => this.(military := v)
      case Traffic => this.(traffic := v)
      case Cctv => this.(cctv := v)
      case Earthquakes => this.(earthquakes := v)
    }
  }

  const AllOff := Layers(false, false, false, false, false, false)

  /** Toggling a layer twice restores the layers. */
  lemma ToggleTwice(layers: Layers, l: Layer)
    ensures layers.Set(l, !layers.Get(l)).Set(l, !layers.Set(l, !layers.Get(l)).Get(l)) == layers
  {
    match l
    case Satellites =>
    case Flights =>
    case Military =>
    case Traffic =>
    case Cctv =>
    case Earthquakes =>
  }

  /** `CITIES[city]?.landmarks[index]`, `None` for an index outside either table. */
  function LandmarkAt(city: int, index: int): (r: Option<Landmark>)
    ensures r.Some? <==> 0 <= city < |Cities| && 0 <= index < |Cities[city].landmarks|
  {
    if 0 <= city < |Cities| && 0 <= index < |Cities[city].landmarks| then Some(Cities[city].landmarks[index])
    else None
  }

  /** The CSS class of the globe: none for the normal style, `effect-<id>` otherwise. */
  function StyleClass(style: string): (c: string) {
    if style != "normal" then "effect-" + style else ""
  }

  /** The name of the selected city, or "" when the index names none. */
  function LocationName(city: int): string {
    if city >= 0 && city < |Cities| then Cities[city].name else ""
  }

  /** The name of the selected landmark, or "" when either index names none. */
  function LandmarkName(city: int, landmark: int): string {
    var l := LandmarkAt(city, landmark);
    if landmark >= 0 && l.Some? then l.value.name else ""
  }

  /** The class is empty exactly for the normal style; the names are empty exactly when the
      indices name nothing. */
  lemma DerivedNames(style: string, city: int, landmark: int)
    ensures StyleClass(style) == "" <==> style == "normal"
    ensures LocationName(city) != "" <==> 0 <= city < |Cities|
    ensures LandmarkName(city, landmark) != "" <==> LandmarkAt(city, landmark).Some?
  {
    TablesShape();
    if style != "normal" {
      assert |StyleClass(style)| >= 7;
    }
  }

  // ---------------------------------------------------------------- keyboard shortcuts

  /** What a key press does. */
  datatype KeyEffect =
    | Ignored                                     // typed into an input or a select
    | ChooseStyle(id: string)                     // keys 1-8
    | ChooseLandmark(index: nat, target: Landmark) // keys q w e r t
    | NoEffect

  const LandmarkKeys: seq<string> := ["q", "w", "e", "r", "t"]

  /** The key handler as a function of the key, the event target and the selected city. */
  function KeyEffectOf(key: string, targetIsFormField: bool, city: int): KeyEffect {
    if targetIsFormField then Ignored
    else
      var num := ParseInt(key);
      if num.Some? && 1 <= num.value <= 8 then ChooseStyle(StylePresets[num.value - 1].id)
      else
        var i := IndexOf(LandmarkKeys, ToLowerAscii(key));
        if i >= 0 && city >= 0 && LandmarkAt(city, i).Some? then ChooseLandmark(i, LandmarkAt(city, i).value)
        else NoEffect
  }

  /** Keys 1 to 8 choose the preset at that position. */
  lemma DigitKeysChooseStyles(n: nat, city: int)
    requires 1 <= n <= 8
    ensures KeyEffectOf([DigitChar(n)], false, city) == ChooseStyle(StylePresets[n - 1].id)
  {
    assert ParseInt([DigitChar(n)]) == Some(n) by {
      assert IntToString(n) == [DigitChar(n)];
      ParseIntRoundTrip(n);
    }
    NumberKeyEffect([DigitChar(n)], n, city);
  }

  /** A key that parses to a number from 1 to 8. */
  lemma NumberKeyEffect(key: string, n: int, city: int)
    requires ParseInt(key) == Some(n) && 1 <= n <= 8
    ensures KeyEffectOf(key, false, city) == ChooseStyle(StylePresets[n - 1].id)
  {
  }

  /** The keys q, w, e, r and t, typed with or without shift, choose landmarks 0 to 4 of
      the selected city; with no valid city selected they do nothing. */
  lemma LetterKeysChooseLandmarks(c: char, i: nat, city: int)
    requires i < 5 && (c == "qwert"[i] || c == "QWERT"[i])
    ensures KeyEffectOf([c], false, city)
      == if 0 <= city < |Cities| then ChooseLandmark(i, Cities[city].landmarks[i]) else NoEffect
  {
    LetterKeyIndex(c, i);
    LandmarkKeyEffect([c], city, i);
    LandmarkKeyInRange(city, i);
  }

  /** A key that is no number and lower-cases to landmark key `i`. */
  lemma LandmarkKeyEffect(key: string, city: int, i: nat)
    requires ParseInt(key) == None && IndexOf(LandmarkKeys, ToLowerAscii(key)) == i
    ensures KeyEffectOf(key, false, city)
      == if LandmarkAt(city, i).Some? then ChooseLandmark(i, LandmarkAt(city, i).value) else NoEffect
  {
  }

  lemma LandmarkKeyInRange(city: int, i: nat)
    requires i < 5
    ensures LandmarkAt(city, i).Some? <==> 0 <= city < |Cities|
    ensures 0 <= city < |Cities| ==> |Cities[city].landmarks| == 5
    ensures 0 <= city < |Cities| ==> LandmarkAt(city, i) == Some(Cities[city].landmarks[i])
  {
    TablesShape();
  }

  /** The letter keys are not numbers, and lower-case to their landmark key. */
  lemma LetterKeyIndex(c: char, i: nat)
    requires i < 5 && (c == "qwert"[i] || c == "QWERT"[i])
    ensures ParseInt([c]) == None
    ensures IndexOf(LandmarkKeys, ToLowerAscii([c])) == i
  {
    ParseIntLetter(c);
    LetterLowerCase(c, i);
    LandmarkKeysDistinct(i);
  }

  lemma LetterLowerCase(c: char, i: nat)
    requires i < 5 && (c == "qwert"[i] || c == "QWERT"[i])
    ensures ToLowerAscii([c]) == LandmarkKeys[i]
  {
    var lower := "qwert"[i];
    assert LandmarkKeys[i] == [lower] by {
      if i == 0 { } else if i == 1 { } else if i == 2 { } else if i == 3 { } else { }
    }
    assert c == lower || c as int == lower as int - 32 by {
      if i == 0 { } else if i == 1 { } else if i == 2 { } else if i == 3 { } else { }
    }
    assert ToLowerAscii([c])[0] == lower;
  }

  lemma LandmarkKeysDistinct(i: nat)
    requires i < 5
    ensures IndexOf(LandmarkKeys, LandmarkKeys[i]) == i
  {
    var j := IndexOf(LandmarkKeys, LandmarkKeys[i]);
    assert LandmarkKeys[i] in LandmarkKeys;
    assert LandmarkKeys[j] == LandmarkKeys[i];
    assert forall a, b :: 0 <= a < b < 5 ==> LandmarkKeys[a][0] != LandmarkKeys[b][0];
  }

  // ---------------------------------------------------------------- the state

  /** The state held by the application shell. */
  class AppState {
    var activeStyle: string
    var cameraLat: real
    var cameraLng: real
    var cameraAlt: real
    var crosshairLat: real
    var crosshairLng: real
    var selectedCity: int
    var selectedLandmark: int
    var flyToTarget: Option<Landmark>
    var layers: Layers
    var layerCounts: map<string, int>
    var selectedCctv: Option<CameraPoint>

    /** The initial state: normal style, camera over the Texas State Capitol at 2000 m,
        Austin selected without a landmark, every layer off and no counts. */
    constructor ()
      ensures activeStyle == "normal"
      ensures cameraLat == 30.2747 && cameraLng == -97.7403 && cameraAlt == 2000.0
      ensures crosshairLat == 30.2747 && crosshairLng == -97.7403
      ensures selectedCity == 0 && selectedLandmark == -1 && flyToTarget == None
      ensures layers == AllOff && layerCounts == map[] && selectedCctv == None
    {
      activeStyle := "normal";
      cameraLat, cameraLng, cameraAlt := 30.2747, -97.7403, 2000.0;
      crosshairLat, crosshairLng := 30.2747, -97.7403;
      selectedCity, selectedLandmark := 0, -1;
      flyToTarget := None;
      layers := AllOff;
      layerCounts := map[];
      selectedCctv := None;
    }

    /** `handleCameraMove`: the camera values are stored; the crosshair follows the centre
        when both centre values are given and the camera otherwise. */
    method HandleCameraMove(lat: real, lng: real, alt: real, centerLat: Option<real>, centerLng: Option<real>)
      modifies this`cameraLat, this`cameraLng, this`cameraAlt, this`crosshairLat, this`crosshairLng
      ensures cameraLat == lat && cameraLng == lng && cameraAlt == alt
      ensures centerLat.Some? && centerLng.Some? ==> crosshairLat == centerLat.value && crosshairLng == centerLng.value
      ensures !(centerLat.Some? && centerLng.Some?) ==> crosshairLat == lat && crosshairLng == lng
    {
      cameraLat := lat;
      cameraLng := lng;
      cameraAlt := alt;
      if centerLat.Some? && centerLng.Some? {
        crosshairLat := centerLat.value;
        crosshairLng := centerLng.value;
      } else {
        crosshairLat := lat;
        crosshairLng := lng;
      }
    }

    /** `handleToggleLayer`: exactly the named layer flips; switching CCTV off also closes
        the selected camera. */
    method HandleToggleLayer(layer: Layer)
      modifies this`layers, this`selectedCctv
      ensures layers == old(layers).Set(layer, !old(layers).Get(layer))
      ensures selectedCctv == if layer == Cctv && old(layers).cctv then None else old(selectedCctv)
    {
      var prev := layers;
      var next := prev.Set(layer, !prev.Get(layer));
      if layer == Cctv && prev.cctv {
        selectedCctv := None;
      }
      layers := next;
    }

    /** `handleCountUpdate`: the count of the named layer is replaced, other keys stay. */
    method HandleCountUpdate(layer: string, count: int)
      modifies this`layerCounts
      ensures layerCounts == old(layerCounts)[layer := count]
    {
      layerCounts := layerCounts[layer := count];
    }

    /** `handleCityChange`: the city is stored as given and the landmark cleared; a valid
        city sends the camera to its first landmark, an invalid one leaves the target. */
    method HandleCityChange(index: int)
      modifies this`selectedCity, this`selectedLandmark, this`flyToTarget
      ensures selectedCity == index && selectedLandmark == -1
      ensures 0 <= index < |Cities| ==> flyToTarget == Some(Cities[index].landmarks[0])
      ensures !(0 <= index < |Cities|) ==> flyToTarget == old(flyToTarget)
    {
      selectedCity := index;
      selectedLandmark := -1;
      if index >= 0 && index < |Cities| {
        TablesShape();
        var city := Cities[index];
        flyToTarget := Some(city.landmarks[0]);
      }
    }

    /** `handleLandmarkChange`: the landmark index is stored as given; when it names a
        landmark of the selected city the camera is sent there. */
    method HandleLandmarkChange(index: int)
      modifies this`selectedLandmark, this`flyToTarget
      ensures selectedLandmark == index && selectedCity == old(selectedCity)
      ensures LandmarkAt(old(selectedCity), index).Some? ==> flyToTarget == LandmarkAt(old(selectedCity), index)
      ensures LandmarkAt(old(selectedCity), index).None? ==> flyToTarget == old(flyToTarget)
    {
      selectedLandmark := index;
      if index >= 0 && selectedCity >= 0 {
        var landmark := LandmarkAt(selectedCity, index);
        if landmark.Some? {
          flyToTarget := landmark;
        }
      }
    }

    /** A webcam is picked on the CCTV layer. */
    method SelectCctv(camera: CameraPoint)
      modifies this`selectedCctv
      ensures selectedCctv == Some(camera)
    {
      selectedCctv := Some(camera);
    }

    /** The close button of the webcam panel. */
    method CloseCctv()
      modifies this`selectedCctv
      ensures selectedCctv == None
    {
      selectedCctv := None;
    }

    /** The keydown handler. */
    method KeyDown(key: string, targetIsFormField: bool)
      modifies this`activeStyle, this`selectedLandmark, this`flyToTarget
      ensures var e := KeyEffectOf(key, targetIsFormField, old(selectedCity));
        && activeStyle == (if e.ChooseStyle? then e.id else old(activeStyle))
        && selectedLandmark == (if e.ChooseLandmark? then e.index else old(selectedLandmark))
        && flyToTarget == (if e.ChooseLandmark? then Some(e.target) else old(flyToTarget))
    {
      var effect := KeyEffectOf(key, targetIsFormField, selectedCity);
      match effect
      case ChooseStyle(id) =>
        activeStyle := id;
      case ChooseLandmark(index, target) =>
        selectedLandmark := index;
        flyToTarget := Some(target);
      case _ =>
    }
  }
}
