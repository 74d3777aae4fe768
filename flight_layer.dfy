/** The live flight layer (src/layers/FlightLayer.tsx): the OpenSky state-vector parse, the
    simulated fallback traffic, the layer's visibility effect and the estimated trajectory
    drawn in detection mode. */
module FlightLayer {
  import opened Wrappers
  import opened JsRuntime
  import opened JsonValue

  /** A flight as the layer stores it. The parsed fields are whatever JSON the state vector
      held at that position; `None` is `undefined`. */
  datatype Flight = Flight(icao24: Option<Json>, callsign: string, lat: Option<Json>,
                           lng: Option<Json>, alt: Json, heading: Json, velocity: Json,
                           onGround: Option<Json>)

  // ---------------------------------------------------------------- state-vector parse

  /** The positions of an OpenSky state vector the layer reads: `s[0]`, `s[1]`, `s[5]` to
      `s[10]`; `None` is `undefined`. */
  datatype StateVector = StateVector(icao24: Option<Json>, callsign: Option<Json>,
                                     lng: Option<Json>, lat: Option<Json>, alt: Option<Json>,
                                     onGround: Option<Json>, velocity: Option<Json>,
                                     heading: Option<Json>)

  /** Reading those positions of a value that is not `null` (on `null` the first read
      throws). */
  function Read(s: Json): StateVector
    requires !s.JNull?
  {
    StateVector(Element(s, 0), Element(s, 1), Element(s, 5), Element(s, 6), Element(s, 7),
                Element(s, 8), Element(s, 9), Element(s, 10))
  }

  /** `v != null`, which is false for both `null` and `undefined`. */
  predicate Present(v: Option<Json>) {
    v.Some? && !v.value.JNull?
  }

  /** The filter test `s[5] != null && s[6] != null && !s[8]`: both coordinates present
      and not on the ground. */
  predicate Qualifies(v: StateVector) {
    Present(v.lng) && Present(v.lat) && !Truthy(v.onGround)
  }

  /** `xs.filter(keep)`. */
  function Filter<T>(xs: seq<T>, keep: T -> bool): (r: seq<T>)
    ensures |r| <= |xs|
  {
    if xs == [] then [] else (if keep(xs[0]) then [xs[0]] else []) + Filter(xs[1..], keep)
  }

  /** `xs.slice(0, n)`. */
  function Take<T>(xs: seq<T>, n: nat): (r: seq<T>)
    ensures |r| == if |xs| < n then |xs| else n
    ensures r <= xs
  {
    if |xs| <= n then xs else xs[..n]
  }

  /** `xs.map(f)` where `f` may throw (`None`): the first throw aborts the whole map. */
  function MapOrThrow<A, B>(xs: seq<A>, f: A -> Option<B>): Option<seq<B>> {
    if xs == [] then Some([])
    else
      match f(xs[0])
      case None => None
      case Some(y) =>
        match MapOrThrow(xs[1..], f)
        case None => None
        case Some(rest) => Some([y] + rest)
  }

  /** `(s[1] || '').trim()` throws: a truthy `s[1]` that is not a string has no `trim`. */
  predicate CallsignThrows(v: StateVector) {
    Truthy(v.callsign) && !v.callsign.value.JStr?
  }

  /** The `map` callback on the positions read: `None` when `(s[1] || '').trim()` throws
      because a truthy `s[1]` is not a string. */
  function ToFlight(v: StateVector): (r: Option<Flight>) {
    var callsign := OrElse(v.callsign, JStr(""));
    if !callsign.JStr? then None
    else
      Some(Flight(v.icao24, Trim(callsign.s), v.lat, v.lng,
                  OrElse(v.alt, JNum(0.0)), OrElse(v.heading, JNum(0.0)),
                  OrElse(v.velocity, JNum(0.0)), v.onGround))
  }

  /** The vectors the parse keeps, before the cap: the qualifying ones in input order. */
  function Kept(states: seq<Json>): (r: seq<StateVector>)
    requires JNull !in states
  {
    Filter(ReadAll(states), Qualifies)
  }

  /** The positions read from each vector. */
  function ReadAll(states: seq<Json>): (r: seq<StateVector>)
    requires JNull !in states
    ensures |r| == |states| && forall k :: 0 <= k < |states| ==> r[k] == Read(states[k])
  {
    if states == [] then [] else [Read(states[0])] + ReadAll(states[1..])
  }

  /** The most flights the layer keeps from one response. */
  const MaxFlights: nat := 2000

  /** What one fetch does to the layer: new flights, nothing (the response has no truthy
      `states`), or the fallback after an exception. */
  datatype Outcome = Parsed(flights: seq<Flight>) | NoStates | Failed

  /** The `try` block of `fetchFlights` applied to the body of a successful response. A
      `null` body, a truthy `states` that is not an array, a `null` state vector (its `s[5]`
      throws) and a non-string callsign among the kept vectors all throw. */
  function ParseStates(data: Json): Outcome {
    if data.JNull? then Failed
    else
      var states := Get(data, "states");
      if !Truthy(states) then NoStates
      else if !states.value.JArr? || JNull in states.value.items then Failed
      else
        match MapOrThrow(Take(Kept(states.value.items), MaxFlights), ToFlight)
        case None => Failed
        case Some(flights) => Parsed(flights)
  }

  /** The response of the OpenSky endpoint: a body, or no body because the request failed,
      the status was not OK or the body was not JSON (each of which throws). */
  datatype Response = Unavailable | Body(data: Json)

  function FetchOutcome(response: Response): Outcome {
    match response
    case Unavailable => Failed
    case Body(data) => ParseStates(data)
  }

  // ---------------------------------------------------------------- parse properties

  /** The filter keeps exactly the members that pass the test. */
  lemma {:induction false} FilterMembers<T>(xs: seq<T>, keep: T -> bool)
    ensures forall x :: x in Filter(xs, keep) <==> x in xs && keep(x)
  {
    if xs != [] {
      FilterMembers(xs[1..], keep);
      assert forall x :: x in xs <==> x == xs[0] || x in xs[1..];
    }
  }

  /** Filtering distributes over concatenation: the kept members keep their input order. */
  lemma {:induction false} FilterConcat<T>(a: seq<T>, b: seq<T>, keep: T -> bool)
    ensures Filter(a + b, keep) == Filter(a, keep) + Filter(b, keep)
  {
    if a == [] {
      assert a + b == b;
    } else {
      var head := if keep(a[0]) then [a[0]] else [];
      assert (a + b)[0] == a[0] && (a + b)[1..] == a[1..] + b;
      assert Filter(a + b, keep) == head + Filter(a[1..] + b, keep);
      assert Filter(a, keep) == head + Filter(a[1..], keep);
      FilterConcat(a[1..], b, keep);
    }
  }

  /** The map succeeds exactly when the callback succeeds on every member, and then maps
      each member in place. */
  lemma {:induction false} MapOrThrowSpec<A, B>(xs: seq<A>, f: A -> Option<B>)
    ensures MapOrThrow(xs, f).Some? <==> forall k :: 0 <= k < |xs| ==> f(xs[k]).Some?
    ensures MapOrThrow(xs, f).Some? ==>
      |MapOrThrow(xs, f).value| == |xs|
      && forall k :: 0 <= k < |xs| ==> MapOrThrow(xs, f).value[k] == f(xs[k]).value
  {
    if xs != [] {
      MapOrThrowSpec(xs[1..], f);
      assert forall k :: 1 <= k < |xs| ==> xs[k] == xs[1..][k - 1];
    }
  }

  /** A one-element list maps to the one-element list of its image, or throws with it. */
  lemma MapOrThrowSingle<A, B>(x: A, f: A -> Option<B>)
    ensures MapOrThrow([x], f) == if f(x).Some? then Some([f(x).value]) else None
  {
    assert [x][0] == x && [x][1..] == [];
    assert MapOrThrow([x][1..], f) == Some([]);
    if f(x).Some? {
      assert [f(x).value] + [] == [f(x).value];
    }
  }

  /** The field mapping: latitude from `s[6]` and longitude from `s[5]`, the callsign
      trimmed (empty when `s[1]` is falsy), altitude, heading and velocity defaulting to 0
      when falsy, and `icao24` and the ground flag copied. The callback throws exactly when
      `s[1]` is truthy and not a string. */
  lemma FieldMapping(v: StateVector)
    requires Qualifies(v)
    ensures ToFlight(v).None? <==> CallsignThrows(v)
    ensures ToFlight(v).Some? ==>
      var f := ToFlight(v).value;
      f.lat == v.lat && f.lng == v.lng && Present(f.lat) && Present(f.lng)
      && f.icao24 == v.icao24 && f.onGround == v.onGround && !Truthy(f.onGround)
      && (!Truthy(v.callsign) ==> f.callsign == [])
      && (Truthy(v.callsign) ==> f.callsign == Trim(v.callsign.value.s))
      && (if Truthy(v.alt) then Some(f.alt) == v.alt else f.alt == JNum(0.0))
      && (if Truthy(v.heading) then Some(f.heading) == v.heading else f.heading == JNum(0.0))
      && (if Truthy(v.velocity) then Some(f.velocity) == v.velocity else f.velocity == JNum(0.0))
  {
    assert Trim("") == "";
  }

  /** A parsed list is the mapping of the first `min(2000, #qualifying)` qualifying vectors,
      in input order; every flight in it has both coordinates and is not on the ground. */
  lemma ParsedFlights(data: Json)
    requires ParseStates(data).Parsed?
    ensures var states := Get(data, "states");
      states.Some? && states.value.JArr? && JNull !in states.value.items
      && var kept := Kept(states.value.items);
         var flights := ParseStates(data).flights;
         |flights| == (if |kept| < MaxFlights then |kept| else MaxFlights)
         && forall k :: 0 <= k < |flights| ==>
              Qualifies(kept[k])
              && (exists j :: 0 <= j < |states.value.items| && kept[k] == Read(states.value.items[j]))
              && ToFlight(kept[k]) == Some(flights[k])
              && kept[k].lat == flights[k].lat && kept[k].lng == flights[k].lng
              && Present(flights[k].lat) && Present(flights[k].lng) && !Truthy(flights[k].onGround)
  {
    ParsedMapping(data);
    var items := Get(data, "states").value.items;
    var kept := Kept(items);
    var taken := Take(kept, MaxFlights);
    MapOrThrowSpec(taken, ToFlight);
    var flights := ParseStates(data).flights;
    forall k | 0 <= k < |flights|
      ensures Qualifies(kept[k]) && exists j :: 0 <= j < |items| && kept[k] == Read(items[j])
      ensures ToFlight(kept[k]) == Some(flights[k])
      ensures kept[k].lat == flights[k].lat && kept[k].lng == flights[k].lng
      ensures Present(flights[k].lat) && Present(flights[k].lng) && !Truthy(flights[k].onGround)
    {
      MappedAt(items, flights, k);
    }
  }

  /** A parse that succeeds read an array of non-null vectors and mapped the capped kept ones. */
  lemma ParsedMapping(data: Json)
    requires ParseStates(data).Parsed?
    ensures var states := Get(data, "states");
      states.Some? && states.value.JArr? && JNull !in states.value.items
      && MapOrThrow(Take(Kept(states.value.items), MaxFlights), ToFlight) == Some(ParseStates(data).flights)
  {
  }

  /** The `k`-th flight of the capped mapping comes from the `k`-th kept vector. */
  lemma MappedAt(items: seq<Json>, flights: seq<Flight>, k: nat)
    requires JNull !in items
    requires MapOrThrow(Take(Kept(items), MaxFlights), ToFlight) == Some(flights)
    requires k < |flights|
    ensures var kept := Kept(items);
      k < |kept|
      && Qualifies(kept[k]) && (exists j :: 0 <= j < |items| && kept[k] == Read(items[j]))
      && ToFlight(kept[k]) == Some(flights[k])
      && kept[k].lat == flights[k].lat && kept[k].lng == flights[k].lng
      && Present(flights[k].lat) && Present(flights[k].lng) && !Truthy(flights[k].onGround)
  {
    var kept := Kept(items);
    var taken := Take(kept, MaxFlights);
    assert k < |taken| && ToFlight(taken[k]) == Some(flights[k]) by {
      MapOrThrowSpec(taken, ToFlight);
    }
    assert taken[k] == kept[k];
    KeptFrom(items, k);
    FieldMapping(kept[k]);
  }

  /** Every kept vector qualifies and was read from some input vector. */
  lemma KeptFrom(items: seq<Json>, k: nat)
    requires JNull !in items && k < |Kept(items)|
    ensures Qualifies(Kept(items)[k])
    ensures exists j :: 0 <= j < |items| && Kept(items)[k] == Read(items[j])
  {
    var read := ReadAll(items);
    var kept := Kept(items);
    FilterMembers(read, Qualifies);
    assert kept[k] in kept;
    var j :| 0 <= j < |read| && read[j] == kept[k];
  }

  /** The response leaves the layer alone exactly when its body is not `null` and has no
      truthy `states`. */
  lemma NoStatesExactly(data: Json)
    ensures ParseStates(data) == NoStates <==> !data.JNull? && !Truthy(Get(data, "states"))
  {
  }

  /** The map throws exactly when the callback throws on some member. */
  lemma MapOrThrowFails<A, B>(xs: seq<A>, f: A -> Option<B>)
    ensures MapOrThrow(xs, f).None? <==> exists x :: x in xs && f(x).None?
  {
    MapOrThrowSpec(xs, f);
    if MapOrThrow(xs, f).None? {
      var k :| 0 <= k < |xs| && f(xs[k]).None?;
      assert xs[k] in xs;
    }
  }

  /** The parse throws exactly when the body is `null`, `states` is truthy but not an array
      of non-null vectors, or a kept vector within the first 2000 has a truthy callsign that
      is not a string. */
  lemma FailedExactly(data: Json)
    ensures ParseStates(data) == Failed <==>
      data.JNull?
      || (Truthy(Get(data, "states"))
          && var states := Get(data, "states").value;
             !states.JArr? || JNull in states.items
             || exists v :: v in Take(Kept(states.items), MaxFlights) && CallsignThrows(v))
  {
    if !data.JNull? && Truthy(Get(data, "states")) {
      var states := Get(data, "states").value;
      if states.JArr? && JNull !in states.items {
        var taken := Take(Kept(states.items), MaxFlights);
        MapOrThrowFails(taken, ToFlight);
        assert forall v :: ToFlight(v).None? <==> CallsignThrows(v);
      }
    }
  }

  /** A response with one vector on the ground and one airborne keeps only the airborne
      one, with its latitude and longitude taken from positions 6 and 5 and the missing
      velocity defaulted to 0. */
  lemma ParseExample(grounded: Json, airborne: Json)
    requires grounded == JArr([JStr("a1"), JNull, JNull, JNull, JNull, JNum(2.0), JNum(1.0), JNull, JBool(true)])
    requires airborne == JArr([JStr("b2"), JStr("UAL1"), JNull, JNull, JNull, JNum(-97.5), JNum(30.25),
                               JNum(900.0), JBool(false), JNull, JNum(90.0)])
    ensures ParseStates(JObj(map["states" := JArr([grounded, airborne])]))
      == Parsed([Flight(Some(JStr("b2")), "UAL1", Some(JNum(30.25)), Some(JNum(-97.5)), JNum(900.0),
                        JNum(90.0), JNum(0.0), Some(JBool(false)))])
  {
    var data := JObj(map["states" := JArr([grounded, airborne])]);
    var v := StateVector(Some(JStr("b2")), Some(JStr("UAL1")), Some(JNum(-97.5)), Some(JNum(30.25)),
                         Some(JNum(900.0)), Some(JBool(false)), Some(JNull), Some(JNum(90.0)));
    assert Get(data, "states") == Some(JArr([grounded, airborne]));
    assert JNull !in [grounded, airborne];
    ExampleKept(grounded, airborne);
    assert Take([v], MaxFlights) == [v];
    ExampleMapped(v);
  }

  /** Of the example's two vectors only the airborne one is kept. */
  lemma ExampleKept(grounded: Json, airborne: Json)
    requires grounded == JArr([JStr("a1"), JNull, JNull, JNull, JNull, JNum(2.0), JNum(1.0), JNull, JBool(true)])
    requires airborne == JArr([JStr("b2"), JStr("UAL1"), JNull, JNull, JNull, JNum(-97.5), JNum(30.25),
                               JNum(900.0), JBool(false), JNull, JNum(90.0)])
    ensures JNull !in [grounded, airborne]
    ensures Kept([grounded, airborne])
      == [StateVector(Some(JStr("b2")), Some(JStr("UAL1")), Some(JNum(-97.5)), Some(JNum(30.25)),
                      Some(JNum(900.0)), Some(JBool(false)), Some(JNull), Some(JNum(90.0)))]
  {
    var v := StateVector(Some(JStr("b2")), Some(JStr("UAL1")), Some(JNum(-97.5)), Some(JNum(30.25)),
                         Some(JNum(900.0)), Some(JBool(false)), Some(JNull), Some(JNum(90.0)));
    assert Read(airborne) == v;
    assert !Qualifies(Read(grounded)) by {
      assert Element(grounded, 8) == Some(JBool(true));
    }
    var read := ReadAll([grounded, airborne]);
    assert read == [Read(grounded), v] && read[1..] == [v];
    assert Filter([v], Qualifies) == [v] + Filter([], Qualifies);
  }

  /** The airborne vector of the example becomes its flight: the callsign kept as is,
      latitude and longitude swapped into place, the missing velocity defaulted to 0. */
  lemma ExampleFlight(v: StateVector)
    requires v == StateVector(Some(JStr("b2")), Some(JStr("UAL1")), Some(JNum(-97.5)), Some(JNum(30.25)),
                              Some(JNum(900.0)), Some(JBool(false)), Some(JNull), Some(JNum(90.0)))
    ensures ToFlight(v)
      == Some(Flight(Some(JStr("b2")), "UAL1", Some(JNum(30.25)), Some(JNum(-97.5)), JNum(900.0),
                     JNum(90.0), JNum(0.0), Some(JBool(false))))
  {
    assert Trim("UAL1") == "UAL1" by {
      var callsign := "UAL1";
      assert !IsSpace(callsign[0]) && !IsSpace(callsign[|callsign| - 1]);
      TrimUnspaced(callsign);
    }
    FieldMapping(v);
  }

  /** The airborne vector of the example maps to its flight. */
  lemma ExampleMapped(v: StateVector)
    requires v == StateVector(Some(JStr("b2")), Some(JStr("UAL1")), Some(JNum(-97.5)), Some(JNum(30.25)),
                              Some(JNum(900.0)), Some(JBool(false)), Some(JNull), Some(JNum(90.0)))
    ensures MapOrThrow([v], ToFlight)
      == Some([Flight(Some(JStr("b2")), "UAL1", Some(JNum(30.25)), Some(JNum(-97.5)), JNum(900.0),
                      JNum(90.0), JNum(0.0), Some(JBool(false)))])
  {
    ExampleFlight(v);
    MapOrThrowSingle(v, ToFlight);
  }

  // ---------------------------------------------------------------- simulated traffic

  /** An air corridor: centre in degrees and the half-width of the box flights are
      scattered over. */
  datatype Corridor = Corridor(lat: real, lng: real, spread: real)

  /** Transatlantic, Asia, Europe, US mainland and Australia. */
  const Corridors: seq<Corridor> := [
    Corridor(45.0, -30.0, 20.0), Corridor(35.0, 100.0, 25.0), Corridor(40.0, 10.0, 15.0),
    Corridor(35.0, -90.0, 15.0), Corridor(-20.0, 130.0, 15.0)]

  const Airlines: seq<string> := ["UAL", "DAL", "AAL", "SWA", "BAW", "DLH", "AFR"]

  /** The seven `Math.random()` values one simulated flight draws, in call order. */
  datatype Draws = Draws(corridor: real, airline: real, lat: real, lng: real, alt: real,
                         heading: real, velocity: real)

  predicate Unit(r: real) { 0.0 <= r < 1.0 }

  /** Every value `Math.random()` returns lies in [0, 1). */
  predicate UnitDraws(d: Draws) {
    Unit(d.corridor) && Unit(d.airline) && Unit(d.lat) && Unit(d.lng) && Unit(d.alt)
    && Unit(d.heading) && Unit(d.velocity)
  }

  /** `Math.floor(r * n)`: a uniform index below `n`. */
  function Pick(r: real, n: nat): (k: nat)
    requires Unit(r) && n > 0
    ensures k < n
  {
    assert 0.0 <= r * n as real < n as real;
    (r * n as real).Floor
  }

  /** The identifier of the `i`-th simulated flight: `SIM` and `i` padded to four digits. */
  function SimId(i: nat): (id: string)
    ensures |id| >= 7 && id[..3] == "SIM"
  {
    "SIM" + PadStart(IntToString(i), 4, '0')
  }

  /** `centre + (r - 0.5) * spread * 2`: a coordinate scattered over
      `[centre - spread, centre + spread)`. */
  function Scatter(centre: real, spread: real, r: real): (x: real)
    requires Unit(r) && spread > 0.0
    ensures centre - spread <= x < centre + spread
  {
    assert (r - 0.5) * spread * 2.0 == (2.0 * r - 1.0) * spread;
    centre + (r - 0.5) * spread * 2.0
  }

  /** The `i`-th simulated flight, airborne inside its corridor's box. */
  function SimulatedFlight(i: nat, d: Draws): Flight
    requires UnitDraws(d)
  {
    var c := Corridors[Pick(d.corridor, |Corridors|)];
    assert c.spread > 0.0 by { assert c in Corridors; }
    Flight(Some(JStr(SimId(i))), Airlines[Pick(d.airline, 7)] + IntToString(100 + i),
           Some(JNum(Scatter(c.lat, c.spread, d.lat))), Some(JNum(Scatter(c.lng, c.spread, d.lng))),
           JNum(8000.0 + d.alt * 4000.0), JNum(d.heading * 360.0),
           JNum(200.0 + d.velocity * 300.0), Some(JBool(false)))
  }

  /** The first `n` simulated flights, the `k`-th from the `k`-th draws. */
  function Simulated(draws: seq<Draws>, n: nat): (flights: seq<Flight>)
    requires n <= |draws| && forall k :: 0 <= k < |draws| ==> UnitDraws(draws[k])
    ensures |flights| == n
  {
    if n == 0 then [] else Simulated(draws, n - 1) + [SimulatedFlight(n - 1, draws[n - 1])]
  }

  /** The `k`-th simulated flight is the one for index `k` and the `k`-th draws. */
  lemma {:induction false} SimulatedAt(draws: seq<Draws>, n: nat, k: nat)
    requires n <= |draws| && forall j :: 0 <= j < |draws| ==> UnitDraws(draws[j])
    requires k < n
    ensures Simulated(draws, n)[k] == SimulatedFlight(k, draws[k])
  {
    if k < n - 1 {
      SimulatedAt(draws, n - 1, k);
      assert Simulated(draws, n)[k] == Simulated(draws, n - 1)[k];
    } else {
      assert Simulated(draws, n)[k] == SimulatedFlight(n - 1, draws[n - 1]);
    }
  }

  /** `generateSimulatedFlights(count)`: one flight per index, pushed in order. */
  method GenerateSimulatedFlights(count: nat, draws: seq<Draws>) returns (flights: seq<Flight>)
    requires |draws| == count && forall k :: 0 <= k < count ==> UnitDraws(draws[k])
    ensures flights == Simulated(draws, count)
  {
    flights := [];
    var i := 0;
    while i < count
      invariant 0 <= i <= count && flights == Simulated(draws, i)
    {
      flights := flights + [SimulatedFlight(i, draws[i])];
      i := i + 1;
    }
  }

  /** Distinct indices give distinct identifiers, so the entity keys are unique: padding
      keeps the number's value. */
  lemma SimIdInjective(i: nat, j: nat)
    ensures SimId(i) == SimId(j) <==> i == j
  {
    if SimId(i) == SimId(j) {
      var pi := PadStart(NatDigits(i), 4, '0');
      var pj := PadStart(NatDigits(j), 4, '0');
      assert pi == SimId(i)[3..] && pj == SimId(j)[3..];
      PaddedDigitsValue(i, 4);
      PaddedDigitsValue(j, 4);
    }
  }

  /** Indices below 10000 are zero-padded to four digits. */
  lemma SimIdPadded()
    ensures SimId(7) == "SIM0007"
  {
  }

  /** Past 9999 the padding no longer applies. */
  lemma SimIdUnpadded()
    ensures SimId(12345) == "SIM12345"
  {
    assert NatDigits(12) == "12";
    assert NatDigits(123) == "123";
    assert NatDigits(1234) == "1234";
    assert IntToString(12345) == "12345";
    assert PadStart("12345", 4, '0') == "12345";
  }

  /** A simulated flight is airborne with a string identifier and callsign of an airline,
      sits inside its corridor's box (so within latitudes [-35, 65) and longitudes
      [-105, 145)), flies at 8000 to 12000 metres, with a heading in [0, 360) and a
      velocity in [200, 500). */
  lemma SimulatedFlightShape(i: nat, d: Draws)
    requires UnitDraws(d)
    ensures var f := SimulatedFlight(i, d);
      f.icao24 == Some(JStr(SimId(i))) && f.onGround == Some(JBool(false))
      && (exists a :: a in Airlines && f.callsign == a + IntToString(100 + i))
      && f.lat.Some? && f.lat.value.JNum? && -35.0 <= f.lat.value.n < 65.0
      && f.lng.Some? && f.lng.value.JNum? && -105.0 <= f.lng.value.n < 145.0
      && f.alt.JNum? && 8000.0 <= f.alt.n < 12000.0
      && f.heading.JNum? && 0.0 <= f.heading.n < 360.0
      && f.velocity.JNum? && 200.0 <= f.velocity.n < 500.0
  {
    var c := Corridors[Pick(d.corridor, |Corridors|)];
    assert c in Corridors;
    assert -35.0 <= c.lat - c.spread && c.lat + c.spread <= 65.0;
    assert -105.0 <= c.lng - c.spread && c.lng + c.spread <= 145.0;
    assert Airlines[Pick(d.airline, 7)] in Airlines;
  }

  /** A simulated flight would pass the parse's own filter: both coordinates present and
      not on the ground. */
  lemma SimulatedFlightQualifies(i: nat, d: Draws)
    requires UnitDraws(d)
    ensures var f := SimulatedFlight(i, d);
      Qualifies(StateVector(f.icao24, Some(JStr(f.callsign)), f.lng, f.lat, Some(f.alt),
                            f.onGround, Some(f.velocity), Some(f.heading)))
  {
    SimulatedFlightShape(i, d);
  }

  /** Two different simulated flights of one batch have different identifiers. */
  lemma SimulatedIdsDistinct(draws: seq<Draws>, n: nat, a: nat, b: nat)
    requires n <= |draws| && forall j :: 0 <= j < |draws| ==> UnitDraws(draws[j])
    requires a < n && b < n && a != b
    ensures Simulated(draws, n)[a].icao24 != Simulated(draws, n)[b].icao24
  {
    SimulatedAt(draws, n, a);
    SimulatedAt(draws, n, b);
    SimIdInjective(a, b);
  }

  // ---------------------------------------------------------------- estimated trajectory

  /** The numbers the trajectory is computed from: position in degrees, altitude in
      metres, heading in degrees and velocity in metres per second. */
  datatype Track = Track(lat: real, lng: real, alt: real, heading: real, velocity: real)

  /** The numbers a flight's trajectory is drawn from, when every one of its five fields
      is a JSON number; other flights are outside this model of the trajectory. */
  function TrackOf(f: Flight): (r: Option<Track>)
    ensures r.Some? <==> f.lat.Some? && f.lat.value.JNum? && f.lng.Some? && f.lng.value.JNum?
                         && f.alt.JNum? && f.heading.JNum? && f.velocity.JNum?
    ensures r.Some? ==> r.value.lat == f.lat.value.n && r.value.lng == f.lng.value.n
                        && r.value.alt == f.alt.n && r.value.heading == f.heading.n
                        && r.value.velocity == f.velocity.n
  {
    match (f.lat, f.lng, f.alt, f.heading, f.velocity)
    case (Some(JNum(lat)), Some(JNum(lng)), JNum(alt), JNum(heading), JNum(velocity)) =>
      Some(Track(lat, lng, alt, heading, velocity))
    case _ => None
  }

  /** Every simulated flight has a numeric track, so its trajectory is within this model. */
  lemma SimulatedFlightHasTrack(i: nat, d: Draws)
    requires UnitDraws(d)
    ensures TrackOf(SimulatedFlight(i, d)).Some?
  {
    SimulatedFlightShape(i, d);
  }

  /** `Math.cos` and `Math.sin`, supplied by the caller. */
  type Trig = real -> real

  /** `Math.PI`. */
  const Pi: real := 3.141592653589793

  /** Samples on each side of the current position. */
  const SampleSteps: int := 8

  /** The span each side covers: ten minutes. */
  const TotalSeconds: real := 600.0

  const MetersPerDegLat: real := 111320.0

  function Radians(degrees: real): real {
    degrees * Pi / 180.0
  }

  function Max(a: real, b: real): (m: real)
    ensures m >= a && m >= b && (m == a || m == b)
  {
    if a >= b then a else b
  }

  /** `Math.max(111320 * cos(latRad), 1)`: never below one metre per degree, so the
      division by it is defined even at the poles. */
  function MetersPerDegLng(lat: real, cos: Trig): (m: real)
    ensures m >= 1.0
  {
    Max(MetersPerDegLat * cos(Radians(lat)), 1.0)
  }

  /** `Math.max(velocity || 0, 120)`: at least 120 m/s. */
  function Speed(velocity: real): (s: real)
    ensures s >= 120.0 && s >= velocity
  {
    Max(velocity, 120.0)
  }

  /** The sample `i` steps from now: the position `i * 75` seconds along the heading at
      constant speed, and the altitude clamped at zero. */
  function SampleAt(track: Track, i: int, cos: Trig, sin: Trig): (p: seq<real>)
    ensures |p| == 3
  {
    var t := (i as real / SampleSteps as real) * TotalSeconds;
    var meters := Speed(track.velocity) * t;
    var dLat := (meters * cos(Radians(track.heading))) / MetersPerDegLat;
    var dLng := (meters * sin(Radians(track.heading))) / MetersPerDegLng(track.lat, cos);
    [track.lng + dLng, track.lat + dLat, Max(track.alt, 0.0)]
  }

  /** The flat list `[lng, lat, height, ...]` of the samples `lo` up to `hi - 1`. */
  function Samples(track: Track, lo: int, hi: int, cos: Trig, sin: Trig): (r: seq<real>)
    requires lo <= hi
    decreases hi - lo
  {
    if lo == hi then [] else Samples(track, lo, hi - 1, cos, sin) + SampleAt(track, hi - 1, cos, sin)
  }

  /** `buildEstimatedTrajectory` before the conversion to Cartesian points: the three
      numbers of each step `i = -8 .. 8` pushed in turn. */
  method BuildEstimatedTrajectory(track: Track, cos: Trig, sin: Trig) returns (positions: seq<real>)
    ensures positions == Samples(track, -SampleSteps, SampleSteps + 1, cos, sin)
  {
    positions := [];
    var i := -SampleSteps;
    while i <= SampleSteps
      invariant -SampleSteps <= i <= SampleSteps + 1
      invariant positions == Samples(track, -SampleSteps, i, cos, sin)
    {
      positions := positions + SampleAt(track, i, cos, sin);
      i := i + 1;
    }
  }

  /** Three numbers per sample. */
  lemma {:induction false} SamplesLength(track: Track, lo: int, hi: int, cos: Trig, sin: Trig)
    requires lo <= hi
    ensures |Samples(track, lo, hi, cos, sin)| == 3 * (hi - lo)
    decreases hi - lo
  {
    if lo < hi {
      SamplesLength(track, lo, hi - 1, cos, sin);
    }
  }

  /** The sample for step `k` sits at offset `3 * (k - lo)`. */
  lemma {:induction false} SampleOffset(track: Track, lo: int, hi: int, k: int, cos: Trig, sin: Trig)
    requires lo <= k < hi
    ensures |Samples(track, lo, hi, cos, sin)| == 3 * (hi - lo)
    ensures Samples(track, lo, hi, cos, sin)[3 * (k - lo)..3 * (k - lo) + 3] == SampleAt(track, k, cos, sin)
    decreases hi - lo
  {
    SamplesLength(track, lo, hi, cos, sin);
    SamplesLength(track, lo, hi - 1, cos, sin);
    var front := Samples(track, lo, hi - 1, cos, sin);
    var whole := Samples(track, lo, hi, cos, sin);
    assert whole == front + SampleAt(track, hi - 1, cos, sin);
    if k < hi - 1 {
      SampleOffset(track, lo, hi - 1, k, cos, sin);
      assert whole[3 * (k - lo)..3 * (k - lo) + 3] == front[3 * (k - lo)..3 * (k - lo) + 3];
    } else {
      assert whole[3 * (k - lo)..3 * (k - lo) + 3] == whole[|front|..];
    }
  }

  /** Step 0 is the current position. */
  lemma MiddleSample(track: Track, cos: Trig, sin: Trig)
    ensures SampleAt(track, 0, cos, sin) == [track.lng, track.lat, Max(track.alt, 0.0)]
  {
    var t := (0 as real / SampleSteps as real) * TotalSeconds;
    assert t == 0.0;
    assert Speed(track.velocity) * t == 0.0;
  }

  /** Steps `-i` and `i` lie on either side of the current position at the same distance:
      the trajectory is symmetric about it. */
  lemma SymmetricSamples(track: Track, i: int, cos: Trig, sin: Trig)
    ensures var ahead := SampleAt(track, i, cos, sin);
      var behind := SampleAt(track, -i, cos, sin);
      ahead[0] - track.lng == track.lng - behind[0]
      && ahead[1] - track.lat == track.lat - behind[1]
      && ahead[2] == behind[2]
  {
    var speed := Speed(track.velocity);
    var h := Radians(track.heading);
    var m := MetersPerDegLng(track.lat, cos);
    var t := (i as real / SampleSteps as real) * TotalSeconds;
    var u := (-i as real / SampleSteps as real) * TotalSeconds;
    assert u == -t;
    assert speed * u == -(speed * t);
    assert (speed * u) * cos(h) == -((speed * t) * cos(h));
    assert (speed * u) * sin(h) == -((speed * t) * sin(h));
    assert ((speed * u) * sin(h)) / m == -(((speed * t) * sin(h)) / m);
  }

  /** The trajectory: 17 samples of three numbers, step 0 in the middle is the current
      position, every height is the altitude clamped at zero, and the samples either side
      of the middle mirror each other. */
  lemma TrajectoryShape(track: Track, cos: Trig, sin: Trig)
    ensures var p := Samples(track, -SampleSteps, SampleSteps + 1, cos, sin);
      |p| == 51
      && p[24..27] == [track.lng, track.lat, Max(track.alt, 0.0)]
      && forall k :: -8 <= k <= 8 ==> p[3 * (k + 8)..3 * (k + 8) + 3] == SampleAt(track, k, cos, sin)
                                        && p[3 * (k + 8) + 2] == Max(track.alt, 0.0) >= 0.0
  {
    var p := Samples(track, -SampleSteps, SampleSteps + 1, cos, sin);
    SamplesLength(track, -SampleSteps, SampleSteps + 1, cos, sin);
    forall k | -8 <= k <= 8
      ensures p[3 * (k + 8)..3 * (k + 8) + 3] == SampleAt(track, k, cos, sin)
      ensures p[3 * (k + 8) + 2] == Max(track.alt, 0.0)
    {
      SampleOffset(track, -SampleSteps, SampleSteps + 1, k, cos, sin);
      assert p[3 * (k + 8) + 2] == p[3 * (k + 8)..3 * (k + 8) + 3][2];
    }
    SampleOffset(track, -SampleSteps, SampleSteps + 1, 0, cos, sin);
    MiddleSample(track, cos, sin);
  }

  // ---------------------------------------------------------------- the layer's state

  /** How many simulated flights the fallback produces. */
  const SimulatedCount: nat := 500

  /** The layer's flight list and the counts it has reported through `onCountUpdate`, in
      order. */
  class FlightLayerState {
    var flights: seq<Flight>
    var reported: seq<int>

    /** The last reported count is the number of flights held, and no response ever
        leaves more than 2000. */
    predicate Valid()
      reads this
    {
      (if reported == [] then flights == [] else reported[|reported| - 1] == |flights|)
      && |flights| <= MaxFlights
    }

    constructor()
      ensures flights == [] && reported == [] && Valid()
    {
      flights := [];
      reported := [];
    }

    /** `fetchFlights` given the endpoint's response and, for the fallback, the random
        draws: parsed flights replace the list, a body without `states` changes nothing,
        and a throw installs 500 simulated flights. */
    method Fetch(response: Response, draws: seq<Draws>)
      requires Valid()
      requires |draws| == SimulatedCount && forall k :: 0 <= k < |draws| ==> UnitDraws(draws[k])
      modifies this
      ensures Valid()
      ensures match FetchOutcome(response)
        case Parsed(parsed) => flights == parsed && reported == old(reported) + [|parsed|]
        case NoStates => flights == old(flights) && reported == old(reported)
        case Failed =>
          flights == Simulated(draws, SimulatedCount) && reported == old(reported) + [SimulatedCount]
    {
      var outcome := FetchOutcome(response);
      match outcome
      case Parsed(parsed) =>
        ParsedFlights(response.data);
        flights := parsed;
        reported := reported + [|parsed|];
      case NoStates =>
      case Failed =>
        var simulated := GenerateSimulatedFlights(SimulatedCount, draws);
        flights := simulated;
        reported := reported + [|simulated|];
    }

    /** The hidden branch of the visibility effect: the list is emptied and 0 reported. */
    method Hide()
      requires Valid()
      modifies this
      ensures Valid()
      ensures flights == [] && reported == old(reported) + [0]
    {
      flights := [];
      reported := reported + [0];
    }

    /** The visibility effect: a fetch when the layer becomes visible, emptying when it is
        hidden. */
    method VisibilityChanged(visible: bool, response: Response, draws: seq<Draws>)
      requires Valid()
      requires |draws| == SimulatedCount && forall k :: 0 <= k < |draws| ==> UnitDraws(draws[k])
      modifies this
      ensures Valid()
      ensures !visible ==> flights == [] && reported == old(reported) + [0]
      ensures visible ==> match FetchOutcome(response)
        case Parsed(parsed) => flights == parsed && reported == old(reported) + [|parsed|]
        case NoStates => flights == old(flights) && reported == old(reported)
        case Failed =>
          flights == Simulated(draws, SimulatedCount) && reported == old(reported) + [SimulatedCount]
    {
      if visible {
        Fetch(response, draws);
      } else {
        Hide();
      }
    }
  }
}
