/**
 * The two total lookup tables of the landing page: the weather-code emoji
 * buckets and the service-code labels. Both builds (src/main.js and
 * script.js) carry the same text for these two functions.
 */
module Lookups {

  // ---------------------------------------------------------------------
  // Weather emoji
  // ---------------------------------------------------------------------

  const Sunny := "\U{2600}\U{FE0F}"          // ☀️
  const PartlyCloudy := "\U{26C5}"           // ⛅
  const Cloudy := "\U{2601}\U{FE0F}"         // ☁️
  const Rain := "\U{1F327}\U{FE0F}"          // 🌧️
  const Snow := "\U{2744}\U{FE0F}"           // ❄️
  const Showers := "\U{1F326}\U{FE0F}"       // 🌦️
  const Fallback := "\U{1F324}\U{FE0F}"      // 🌤️

  /** The seven emoji, pairwise distinct, so each bucket can be told apart. */
  lemma EmojiDistinct()
    ensures Sunny != PartlyCloudy && Sunny != Cloudy && Sunny != Rain && Sunny != Snow
    ensures Sunny != Showers && Sunny != Fallback
    ensures PartlyCloudy != Cloudy && PartlyCloudy != Rain && PartlyCloudy != Snow
    ensures PartlyCloudy != Showers && PartlyCloudy != Fallback
    ensures Cloudy != Rain && Cloudy != Snow && Cloudy != Showers && Cloudy != Fallback
    ensures Rain != Snow && Rain != Showers && Rain != Fallback
    ensures Snow != Showers && Snow != Fallback
    ensures Showers != Fallback
  {
  }

  /**
   * Maps a WMO weather code to one of seven buckets. The first test is an
   * equality with 0, every later one an upper bound, so negative codes land
   * in the partly-cloudy bucket.
   */
  function WeatherEmoji(code: int): (emoji: string)
    ensures emoji == Sunny <==> code == 0
    ensures emoji == PartlyCloudy <==> code != 0 && code <= 3
    ensures emoji == Cloudy <==> 3 < code <= 48
    ensures emoji == Rain <==> 48 < code <= 67
    ensures emoji == Snow <==> 67 < code <= 77
    ensures emoji == Showers <==> 77 < code <= 82
    ensures emoji == Fallback <==> 82 < code
  {
    EmojiDistinct();
    if code == 0 then Sunny
    else if code <= 3 then PartlyCloudy
    else if code <= 48 then Cloudy
    else if code <= 67 then Rain
    else if code <= 77 then Snow
    else if code <= 82 then Showers
    else Fallback
  }

  // ---------------------------------------------------------------------
  // Service names
  // ---------------------------------------------------------------------

  /** The six own properties of the `services` object literal. */
  const ServiceLabels: map<string, string> := map[
    "consulta" := "Consulta General",
    "vacunacion" := "Vacunación",
    "cirugia" := "Cirugía",
    "emergencia" := "Emergencia",
    "control" := "Control de Salud",
    "estetica" := "Estética y Baño"
  ]

  /**
   * The label shown for a service code: the table's label for the six known
   * codes, the code itself for anything else (the empty code included).
   * This is the lookup restricted to the table's own entries; see
   * ServiceLookupAsWritten for what the object-literal lookup really does.
   */
  function ServiceName(code: string): (name: string)
    ensures code == "consulta" ==> name == "Consulta General"
    ensures code == "vacunacion" ==> name == "Vacunación"
    ensures code == "cirugia" ==> name == "Cirugía"
    ensures code == "emergencia" ==> name == "Emergencia"
    ensures code == "control" ==> name == "Control de Salud"
    ensures code == "estetica" ==> name == "Estética y Baño"
    ensures code !in ServiceLabels ==> name == code
    ensures name == "" <==> code == ""
  {
    if code in ServiceLabels then ServiceLabels[code] else code
  }

  /**
   * The names an ordinary object literal inherits from Object.prototype
   * (ECMAScript, section 20.1.3, and the legacy accessors of Annex B.2.2).
   */
  const PrototypeMembers: set<string> := {
    "constructor", "hasOwnProperty", "isPrototypeOf", "propertyIsEnumerable",
    "toLocaleString", "toString", "valueOf", "__proto__",
    "__defineGetter__", "__defineSetter__", "__lookupGetter__", "__lookupSetter__"
  }

  /** A JavaScript value read from the table: a label string or an inherited member. */
  datatype LookupValue = Text(s: string) | Inherited(member: string)

  /**
   * `services[code] || code` as written: a property read on an object
   * literal also finds the members inherited from Object.prototype, all of
   * which are truthy (functions, or the prototype object itself).
   */
  function ServiceLookupAsWritten(code: string): (v: LookupValue)
    ensures code in ServiceLabels ==> v == Text(ServiceLabels[code])
    ensures code in PrototypeMembers ==> v == Inherited(code)
    ensures code !in ServiceLabels && code !in PrototypeMembers ==> v == Text(code)
  {
    if code in ServiceLabels then Text(ServiceLabels[code])
    else if code in PrototypeMembers then Inherited(code)
    else Text(code)
  }

  /** Outside the inherited names the written lookup agrees with ServiceName. */
  lemma ServiceLookupAgrees(code: string)
    requires code !in PrototypeMembers
    ensures ServiceLookupAsWritten(code) == Text(ServiceName(code))
  {
  }

  /**
   * The pass-through promise fails for an inherited name: the code
   * "toString" is not a service, yet the lookup yields a function.
   */
  lemma ServiceLookupPassThroughFails()
    ensures "toString" !in ServiceLabels
    ensures ServiceLookupAsWritten("toString") != Text("toString")
    ensures ServiceName("toString") == "toString"
  {
  }
}
