/** The static tables of src/utils/constants.ts: the cities with their five landmarks each,
    and the eight visual style presets. */
module Constants {

  /** A camera target: position in degrees, altitude in metres, pitch in degrees. */
  datatype Landmark = Landmark(name: string, lat: real, lng: real, alt: real, pitch: real)

  datatype City = City(name: string, landmarks: seq<Landmark>)

  /** A visual style: identifier, display name, icon and the key shown for it. */
  datatype StylePreset = StylePreset(id: string, name: string, icon: string, key: string)

  const Cities: seq<City> := [
    City("Austin, TX", [
      Landmark("Texas State Capitol", 30.2747, -97.7403, 800.0, -35.0),
      Landmark("Frost Bank Tower", 30.2672, -97.7431, 600.0, -40.0),
      Landmark("Lady Bird Lake", 30.2515, -97.7500, 1200.0, -30.0),
      Landmark("UT Austin Tower", 30.2862, -97.7394, 700.0, -35.0),
      Landmark("Congress Avenue Bridge", 30.2618, -97.7450, 500.0, -45.0)]),
    City("New York, NY", [
      Landmark("Empire State Building", 40.7484, -73.9857, 800.0, -35.0),
      Landmark("Statue of Liberty", 40.6892, -74.0445, 1000.0, -25.0),
      Landmark("Central Park", 40.7829, -73.9654, 2000.0, -30.0),
      Landmark("Times Square", 40.7580, -73.9855, 600.0, -40.0),
      Landmark("Brooklyn Bridge", 40.7061, -73.9969, 800.0, -35.0)]),
    City("London, UK", [
      Landmark("Big Ben", 51.5007, -0.1246, 700.0, -35.0),
      Landmark("Tower Bridge", 51.5055, -0.0754, 600.0, -40.0),
      Landmark("Buckingham Palace", 51.5014, -0.1419, 800.0, -30.0),
      Landmark("The Shard", 51.5045, -0.0865, 600.0, -35.0),
      Landmark("London Eye", 51.5033, -0.1195, 700.0, -35.0)]),
    City("Dubai, UAE", [
      Landmark("Burj Khalifa", 25.1972, 55.2744, 1000.0, -30.0),
      Landmark("Palm Jumeirah", 25.1124, 55.1390, 5000.0, -25.0),
      Landmark("Dubai Marina", 25.0805, 55.1403, 1200.0, -35.0),
      Landmark("Burj Al Arab", 25.1412, 55.1852, 800.0, -30.0),
      Landmark("Dubai Frame", 25.2350, 55.3004, 700.0, -35.0)]),
    City("Tokyo, JP", [
      Landmark("Tokyo Tower", 35.6586, 139.7454, 700.0, -35.0),
      Landmark("Shibuya Crossing", 35.6595, 139.7004, 500.0, -45.0),
      Landmark("Imperial Palace", 35.6852, 139.7528, 1000.0, -30.0),
      Landmark("Tokyo Skytree", 35.7101, 139.8107, 800.0, -30.0),
      Landmark("Senso-ji Temple", 35.7148, 139.7967, 600.0, -35.0)]),
    City("Moscow, RU", [
      Landmark("Red Square", 55.7539, 37.6208, 800.0, -35.0),
      Landmark("Kremlin", 55.7520, 37.6175, 1000.0, -30.0),
      Landmark("St. Basil's Cathedral", 55.7525, 37.6231, 600.0, -40.0),
      Landmark("Moscow City", 55.7496, 37.5378, 1200.0, -30.0),
      Landmark("Bolshoi Theatre", 55.7601, 37.6187, 500.0, -40.0)]),
    City("Paris, FR", [
      Landmark("Eiffel Tower", 48.8584, 2.2945, 800.0, -35.0),
      Landmark("Arc de Triomphe", 48.8738, 2.2950, 600.0, -40.0),
      Landmark("Notre-Dame", 48.8530, 2.3499, 500.0, -40.0),
      Landmark("Louvre Museum", 48.8606, 2.3376, 700.0, -35.0),
      Landmark("Sacré-Cœur", 48.8867, 2.3431, 600.0, -35.0)]),
    City("Sydney, AU", [
      Landmark("Sydney Opera House", -33.8568, 151.2153, 600.0, -35.0),
      Landmark("Harbour Bridge", -33.8523, 151.2108, 800.0, -30.0),
      Landmark("Bondi Beach", -33.8915, 151.2767, 1000.0, -25.0),
      Landmark("Darling Harbour", -33.8736, 151.1994, 700.0, -35.0),
      Landmark("Taronga Zoo", -33.8437, 151.2412, 800.0, -30.0)])
  ]

  const StylePresets: seq<StylePreset> := [
    StylePreset("normal", "Normal", "◯", "1"),
    StylePreset("crt", "CRT", "◉", "2"),
    StylePreset("nvg", "NVG", "◌", "3"),
    StylePreset("flir", "FLIR", "◎", "4"),
    StylePreset("anime", "Anime", "◇", "5"),
    StylePreset("noir", "Noir", "◆", "6"),
    StylePreset("snow", "Snow", "□", "7"),
    StylePreset("ai", "AI", "▣", "8")
  ]

  /** The tables have the shape the application relies on: eight cities of five landmarks
      with non-empty names, and eight presets whose key is their 1-based position. */
  lemma TablesShape()
    ensures |Cities| == 8
    ensures forall c :: 0 <= c < |Cities| ==> |Cities[c].landmarks| == 5 && Cities[c].name != []
    ensures forall c, l :: 0 <= c < |Cities| && 0 <= l < |Cities[c].landmarks| ==> Cities[c].landmarks[l].name != []
    ensures |StylePresets| == 8 && StylePresets[0].id == "normal"
    ensures forall i :: 0 <= i < |StylePresets| ==> StylePresets[i].key == [('1' as int + i) as char]
  {
  }
}
