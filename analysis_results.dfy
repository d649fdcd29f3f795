/** The CME result record the analysis page produces, and the pure helpers
    of the AnalysisResults component that turn it into text, colours,
    parameter cards and chart rows. */
module AnalysisResults {
  import opened Support

  datatype CmeType = NoCme | TypeII | TypeIII | TypeIV

  /** The string a `CmeType` stands for in the result record. */
  function TypeName(t: CmeType): string {
    match t
    case NoCme => "No CME"
    case TypeII => "Type II"
    case TypeIII => "Type III"
    case TypeIV => "Type IV"
  }

  /** The optional solar-wind parameters; `None` is `undefined`. */
  datatype Characteristics = Characteristics(
    shockSpeed: Option<real>, electronDensity: Option<real>, magneticField: Option<real>, plasmaBeta: Option<real>)

  /** Parallel sample arrays; timestamps are milliseconds since the epoch. */
  datatype TimeSeries = TimeSeries(
    timestamps: seq<int>, magneticField: seq<real>, electronDensity: seq<real>, velocity: seq<real>, temperature: seq<real>)

  datatype CmeResult = CmeResult(
    detected: bool, cmeType: CmeType, probability: real, confidence: real, timestamp: int,
    characteristics: Characteristics, timeSeries: Option<TimeSeries>)

  const DefaultDescription: string := "No significant CME activity detected"
  const DefaultColor: string := "text-green-400"

  /** The three strings the type maps recognise. */
  predicate IsNamedType(t: string) {
    t == "Type II" || t == "Type III" || t == "Type IV"
  }

  /** `getTypeDescription`: a fixed sentence per CME type, and the default for
      any other string, "No CME" included. */
  function TypeDescription(t: string): (d: string)
    ensures !IsNamedType(t) <==> d == DefaultDescription
  {
    if t == "Type II" then "Shock-driven CME with fast radio burst signatures"
    else if t == "Type III" then "Electron stream bursts indicating solar particle acceleration"
    else if t == "Type IV" then "Continuum plasma emission from trapped electrons"
    else DefaultDescription
  }

  /** `getTypeColor`: a text colour class per CME type, green otherwise. */
  function TypeColor(t: string): (c: string)
    ensures !IsNamedType(t) <==> c == DefaultColor
  {
    if t == "Type II" then "text-red-400"
    else if t == "Type III" then "text-orange-400"
    else if t == "Type IV" then "text-yellow-400"
    else DefaultColor
  }

  /** The four type names are distinct strings. */
  lemma TypeNamesDiffer(a: CmeType, b: CmeType)
    requires a != b
    ensures TypeName(a) != TypeName(b)
  {
    var na, nb := TypeName(a), TypeName(b);
    assert |na| != |nb| || na[6] != nb[6];
  }

  /** The description tells every CME type apart. */
  lemma TypeDescriptionsDiffer(a: CmeType, b: CmeType)
    requires a != b
    ensures TypeDescription(TypeName(a)) != TypeDescription(TypeName(b))
  {
    DescriptionLength(a);
    DescriptionLength(b);
  }

  /** Each type's description has its own length, which is what tells them apart. */
  lemma DescriptionLength(t: CmeType)
    ensures |TypeDescription(TypeName(t))| == match t case NoCme => 36 case TypeII => 49 case TypeIII => 61 case TypeIV => 48
  {
    var n := TypeName(t);
    match t
    case NoCme => assert n[0] != 'T';
    case TypeII => {}
    case TypeIII => assert |n| == 8;
    case TypeIV => assert |n| == 7 && n[6] == 'V';
  }

  /** So does the colour class. */
  lemma TypeColorsDiffer(a: CmeType, b: CmeType)
    requires a != b
    ensures TypeColor(TypeName(a)) != TypeColor(TypeName(b))
  {
    TypeNamesDiffer(a, b);
    var ca, cb := TypeColor(TypeName(a)), TypeColor(TypeName(b));
    assert ca[5] != cb[5];
  }

  /** One chart row. A read past the end of an array (the arrays of a mock
      series always have one length) gives `undefined`, recorded as `None`;
      in the temperature column `None` stands for NaN, since there the
      `undefined` is divided by 1000. */
  datatype ChartRow = ChartRow(
    time: int, magneticField: Option<real>, electronDensity: Option<real>, velocity: Option<real>, temperature: Option<real>)

  function At(s: seq<real>, i: nat): (v: Option<real>)
    ensures v.Some? <==> i < |s|
    ensures i < |s| ==> v == Some(s[i])
  {
    if i < |s| then Some(s[i]) else None
  }

  /** `prepareChartData`: no rows without a time series; otherwise one row
      per timestamp, reading the same index of every array, with the
      temperature in thousands. */
  function PrepareChartData(ts: Option<TimeSeries>): (rows: seq<ChartRow>)
    ensures ts.None? ==> rows == []
    ensures ts.Some? ==> |rows| == |ts.value.timestamps|
    ensures ts.Some? ==> forall i | 0 <= i < |rows| ::
              rows[i].time == ts.value.timestamps[i] &&
              rows[i].magneticField == At(ts.value.magneticField, i) &&
              rows[i].electronDensity == At(ts.value.electronDensity, i) &&
              rows[i].velocity == At(ts.value.velocity, i) &&
              (rows[i].temperature.Some? <==> i < |ts.value.temperature|)
  {
    match ts
    case None => []
    case Some(s) =>
      seq(|s.timestamps|, i requires 0 <= i < |s.timestamps| =>
        ChartRow(s.timestamps[i], At(s.magneticField, i), At(s.electronDensity, i), At(s.velocity, i),
                 match At(s.temperature, i) case None => None case Some(t) => Some(t / 1000.0)))
  }

  /** Scaling the chart temperature back by 1000 gives the sample. */
  lemma ChartTemperatureInThousands(s: TimeSeries, i: nat)
    requires i < |s.timestamps| && i < |s.temperature|
    ensures PrepareChartData(Some(s))[i].temperature.value * 1000.0 == s.temperature[i]
  {
    var rows := PrepareChartData(Some(s));
    assert rows[i].temperature == Some(s.temperature[i] / 1000.0);
  }

  /** The temperature chart: at most the first 20 rows. */
  function TemperatureBars(rows: seq<ChartRow>): (bars: seq<ChartRow>)
    ensures |bars| == Min(|rows| as real, 20.0) as int
    ensures forall i | 0 <= i < |bars| :: bars[i] == rows[i]
  {
    if |rows| <= 20 then rows else rows[..20]
  }

  predicate IsUpper(c: char) { 'A' <= c <= 'Z' }

  /** `toUpperCase` on one character, for ASCII letters. */
  function ToUpper(c: char): char {
    if 'a' <= c <= 'z' then (c as int - 32) as char else c
  }

  /** The characters the regular expression `.` does not match. */
  predicate IsLineTerminator(c: char) {
    c == '\n' || c == '\r' || c == '\U{2028}' || c == '\U{2029}'
  }

  function CountUpper(s: string): nat {
    if |s| == 0 then 0 else (if IsUpper(s[0]) then 1 else 0) + CountUpper(s[1..])
  }

  /** `replace(/([A-Z])/g, ' $1')`: a space before every capital. */
  function InsertSpaces(s: string): (t: string)
    ensures |t| == |s| + CountUpper(s)
    ensures |s| > 0 ==> !IsUpper(t[0])
    ensures |s| > 0 && !IsUpper(s[0]) ==> t[0] == s[0]
  {
    if |s| == 0 then []
    else (if IsUpper(s[0]) then [' ', s[0]] else [s[0]]) + InsertSpaces(s[1..])
  }

  /** Drops every space that stands before a capital. */
  function DropSpacesBeforeCapitals(t: string): string
    decreases |t|
  {
    if |t| == 0 then []
    else if |t| >= 2 && t[0] == ' ' && IsUpper(t[1]) then [t[1]] + DropSpacesBeforeCapitals(t[2..])
    else [t[0]] + DropSpacesBeforeCapitals(t[1..])
  }

  /** The spaces inserted are exactly those dropped: the key comes back. */
  lemma {:induction false} InsertSpacesRoundTrip(s: string)
    ensures DropSpacesBeforeCapitals(InsertSpaces(s)) == s
    decreases |s|
  {
    if |s| > 0 {
      InsertSpacesRoundTrip(s[1..]);
      var rest := InsertSpaces(s[1..]);
      var t := InsertSpaces(s);
      if IsUpper(s[0]) {
        assert t == [' ', s[0]] + rest;
        assert t[2..] == rest;
      } else {
        assert t == [s[0]] + rest;
        assert t[1..] == rest;
        if |t| >= 2 && t[0] == ' ' {
          assert t[1] == rest[0];
        }
      }
    }
  }

  /** `formatKey`: spaces before capitals, then the first character (unless
      it is a line terminator) upper-cased. */
  function FormatKey(key: string): (title: string)
    ensures |title| == |key| + CountUpper(key)
    ensures |key| > 0 && !IsLineTerminator(InsertSpaces(key)[0]) ==> title[0] == ToUpper(InsertSpaces(key)[0])
    ensures |key| > 0 ==> title[1..] == InsertSpaces(key)[1..]
  {
    var t := InsertSpaces(key);
    if |t| > 0 && !IsLineTerminator(t[0]) then [ToUpper(t[0])] + t[1..] else t
  }

  /** The replacement works character by character, so it distributes over
      concatenation. */
  lemma {:induction false} InsertSpacesConcat(a: string, b: string)
    ensures InsertSpaces(a + b) == InsertSpaces(a) + InsertSpaces(b)
    decreases |a|
  {
    if |a| > 0 {
      assert (a + b)[0] == a[0] && (a + b)[1..] == a[1..] + b;
      InsertSpacesConcat(a[1..], b);
    } else {
      assert a + b == b;
    }
  }

  /** A key without capitals is left as it is. */
  lemma {:induction false} InsertSpacesNoCapitals(s: string)
    requires NoCapitals(s)
    ensures InsertSpaces(s) == s
    decreases |s|
  {
    if |s| > 0 {
      InsertSpacesNoCapitals(s[1..]);
    }
  }

  predicate NoCapitals(s: string) {
    forall i | 0 <= i < |s| :: !IsUpper(s[i])
  }

  /** A camel-case key of two words gets one space, before its capital. */
  lemma InsertSpacesTwoWords(first: string, capital: char, rest: string)
    requires NoCapitals(first) && NoCapitals(rest) && IsUpper(capital)
    ensures InsertSpaces(first + [capital] + rest) == first + [' ', capital] + rest
  {
    assert InsertSpaces([capital] + rest) == [' ', capital] + rest by {
      InsertSpacesConcat([capital], rest);
      InsertSpacesNoCapitals(rest);
      assert InsertSpaces([capital]) == [' ', capital] + InsertSpaces([]);
    }
    assert first + [capital] + rest == first + ([capital] + rest);
    InsertSpacesConcat(first, [capital] + rest);
    InsertSpacesNoCapitals(first);
    assert first + ([' ', capital] + rest) == first + [' ', capital] + rest;
  }

  /** A two-word camel-case key becomes two capitalised words: for example
      "shockSpeed" becomes "Shock Speed". */
  lemma FormatTwoWordKey(first: string, capital: char, rest: string)
    requires |first| > 0 && 'a' <= first[0] <= 'z' && NoCapitals(first) && NoCapitals(rest) && IsUpper(capital)
    ensures FormatKey(first + [capital] + rest) == [ToUpper(first[0])] + first[1..] + [' ', capital] + rest
  {
    var key := first + [capital] + rest;
    var t := first + [' ', capital] + rest;
    InsertSpacesTwoWords(first, capital, rest);
    assert t[0] == first[0] && !IsLineTerminator(t[0]);
    assert FormatKey(key) == [ToUpper(t[0])] + t[1..];
    assert t[1..] == first[1..] + [' ', capital] + rest;
    assert [ToUpper(first[0])] + (first[1..] + [' ', capital] + rest)
        == [ToUpper(first[0])] + first[1..] + [' ', capital] + rest;
  }

  /** `getUnit`: a unit for three keys, the empty string for any other. */
  function GetUnit(key: string): (unit: string)
    ensures unit != "" <==> key == "shockSpeed" || key == "electronDensity" || key == "magneticField"
  {
    if key == "shockSpeed" then "km/s"
    else if key == "electronDensity" then "cm\U{207B}\U{00B3}"
    else if key == "magneticField" then "nT"
    else ""
  }

  /** The bar width in percent: `min(value / 100, 1) * 100`. */
  function BarWidth(value: real): (w: real)
    ensures w <= 100.0
    ensures value <= 100.0 ==> w == value
    ensures value >= 100.0 ==> w == 100.0
  {
    Min(value / 100.0, 1.0) * 100.0
  }

  /** The keys of the characteristics object, in the order it is built. */
  const CharacteristicKeys: seq<string> := ["shockSpeed", "electronDensity", "magneticField", "plasmaBeta"]

  function Field(c: Characteristics, key: string): Option<real> {
    if key == "shockSpeed" then c.shockSpeed
    else if key == "electronDensity" then c.electronDensity
    else if key == "magneticField" then c.magneticField
    else if key == "plasmaBeta" then c.plasmaBeta
    else None
  }

  function EntriesOf(c: Characteristics, keys: seq<string>): (es: seq<(string, real)>)
    ensures |es| <= |keys|
    ensures forall i | 0 <= i < |es| :: es[i].0 in keys && Field(c, es[i].0) == Some(es[i].1)
    ensures forall k | k in keys && Field(c, k).Some? :: (k, Field(c, k).value) in es
  {
    if |keys| == 0 then []
    else
      var rest := EntriesOf(c, keys[1..]);
      match Field(c, keys[0])
      case None => rest
      case Some(v) => [(keys[0], v)] + rest
  }

  /** The `Object.entries` of the characteristics with the `undefined`
      values skipped: a key is shown exactly when its value is defined. */
  function VisibleCharacteristics(c: Characteristics): (es: seq<(string, real)>)
    ensures forall i | 0 <= i < |es| :: es[i].0 in CharacteristicKeys && Field(c, es[i].0) == Some(es[i].1)
    ensures forall k | k in CharacteristicKeys :: Field(c, k).Some? <==> exists i | 0 <= i < |es| :: es[i].0 == k
  {
    var es := EntriesOf(c, CharacteristicKeys);
    forall k | k in CharacteristicKeys && Field(c, k).Some?
      ensures exists i | 0 <= i < |es| :: es[i].0 == k
    {
      var i :| 0 <= i < |es| && es[i] == (k, Field(c, k).value);
    }
    es
  }

  /** One parameter card: its heading, value, unit and bar width. */
  datatype ParameterCard = ParameterCard(title: string, value: real, unit: string, barWidth: real)

  function Cards(es: seq<(string, real)>): (cards: seq<ParameterCard>)
    ensures |cards| == |es|
    ensures forall i | 0 <= i < |es| ::
              cards[i].title == FormatKey(es[i].0) && cards[i].value == es[i].1 &&
              cards[i].unit == GetUnit(es[i].0) && cards[i].barWidth == BarWidth(es[i].1)
  {
    seq(|es|, i requires 0 <= i < |es| =>
      ParameterCard(FormatKey(es[i].0), es[i].1, GetUnit(es[i].0), BarWidth(es[i].1)))
  }

  const InterpretationLead: string := "The time series data shows characteristic signatures of "
  const InterpretationTail: string :=
    " CME activity, including significant variations in magnetic field strength and electron density that correlate with the detected solar wind disturbances."
  const StableInterpretation: string :=
    "The time series analysis reveals stable solar wind conditions with normal parameter variations, consistent with the absence of significant CME activity during this observation period."

  /** The "Data Interpretation" paragraph: for a detection, the lead, the
      type's name and the tail; otherwise the fixed stable-conditions text. */
  function Interpretation(detected: bool, typeName: string): (s: string)
    ensures detected ==>
              |s| == |InterpretationLead| + |typeName| + |InterpretationTail| &&
              s[..|InterpretationLead|] == InterpretationLead &&
              s[|InterpretationLead|..|InterpretationLead| + |typeName|] == typeName &&
              s[|InterpretationLead| + |typeName|..] == InterpretationTail
    ensures !detected ==> s == StableInterpretation
  {
    if detected then
      var s := InterpretationLead + typeName + InterpretationTail;
      assert s[..|InterpretationLead|] == InterpretationLead;
      assert s[|InterpretationLead|..|InterpretationLead| + |typeName|] == typeName;
      assert s[|InterpretationLead| + |typeName|..] == InterpretationTail;
      s
    else StableInterpretation
  }

  /** A detection's paragraph names its type, so two types read differently. */
  lemma InterpretationNamesType(a: CmeType, b: CmeType)
    requires a != b
    ensures Interpretation(true, TypeName(a)) != Interpretation(true, TypeName(b))
  {
    TypeNamesDiffer(a, b);
    var na, nb := TypeName(a), TypeName(b);
    var sa, sb := Interpretation(true, na), Interpretation(true, nb);
    var k := |InterpretationLead|;
    if |na| == |nb| {
      assert sa[k..k + |na|] != sb[k..k + |nb|];
    }
  }

  /** A detection's paragraph is never the stable-conditions text: it is
      longer, whatever the type's name. */
  lemma InterpretationFollowsDetection(name: string, other: string)
    ensures Interpretation(true, name) != Interpretation(false, other)
  {
    assert |Interpretation(true, name)| > |StableInterpretation|;
  }

  /** What the component shows for a result. The probability and confidence
      are percentages before `toFixed(1)`; `probabilityBar` is the bar's
      width in percent. */
  datatype View = View(
    headline: string, typeDescription: string, typeColor: string,
    probabilityPercent: real, probabilityBar: real, confidencePercent: real,
    cards: seq<ParameterCard>, chart: seq<ChartRow>, temperatureBars: seq<ChartRow>,
    interpretation: string)

  /** The component: nothing for a null result, otherwise the headline by
      `detected`, the type text and colour, the probability and confidence,
      the cards, the chart rows and the interpretation. */
  function Render(result: Option<CmeResult>): (v: Option<View>)
    ensures v.None? <==> result.None?
    ensures v.Some? ==>
              v.value.headline == (if result.value.detected then "CME EVENT DETECTED" else "NO CME DETECTED") &&
              v.value.typeDescription == TypeDescription(TypeName(result.value.cmeType)) &&
              v.value.typeColor == TypeColor(TypeName(result.value.cmeType)) &&
              v.value.probabilityPercent == result.value.probability * 100.0 &&
              v.value.probabilityBar == v.value.probabilityPercent &&
              v.value.confidencePercent == result.value.confidence * 100.0 &&
              v.value.cards == Cards(VisibleCharacteristics(result.value.characteristics)) &&
              v.value.chart == PrepareChartData(result.value.timeSeries) &&
              v.value.temperatureBars == TemperatureBars(v.value.chart) &&
              v.value.interpretation == Interpretation(result.value.detected, TypeName(result.value.cmeType))
  {
    match result
    case None => None
    case Some(r) =>
      var chart := PrepareChartData(r.timeSeries);
      Some(View(
        if r.detected then "CME EVENT DETECTED" else "NO CME DETECTED",
        TypeDescription(TypeName(r.cmeType)), TypeColor(TypeName(r.cmeType)),
        r.probability * 100.0, r.probability * 100.0, r.confidence * 100.0,
        Cards(VisibleCharacteristics(r.characteristics)), chart, TemperatureBars(chart),
        Interpretation(r.detected, TypeName(r.cmeType))))
  }

  /** The parameter cards: one, with its value, for every defined
      characteristic, with bars of at most 100 percent. (That no card shows
      an undefined one is the first `ensures` of `VisibleCharacteristics`.) */
  lemma CardsShowDefinedCharacteristics(c: Characteristics, k: string)
    requires k in CharacteristicKeys
    ensures var cards := Cards(VisibleCharacteristics(c));
            (Field(c, k).Some? ==>
               exists i | 0 <= i < |cards| :: cards[i].title == FormatKey(k) && cards[i].value == Field(c, k).value) &&
            (forall i | 0 <= i < |cards| :: cards[i].barWidth <= 100.0)
  {
    var es := VisibleCharacteristics(c);
    var cards := Cards(es);
    if Field(c, k).Some? {
      var i :| 0 <= i < |es| && es[i].0 == k;
      assert cards[i].title == FormatKey(k) && cards[i].value == Field(c, k).value;
    }
  }

  /** Results of different CME types are shown with different descriptions
      and different colours. */
  lemma RenderDistinguishesTypes(r: CmeResult, other: CmeResult)
    requires r.cmeType != other.cmeType
    ensures Render(Some(r)).value.typeDescription != Render(Some(other)).value.typeDescription
    ensures Render(Some(r)).value.typeColor != Render(Some(other)).value.typeColor
  {
    TypeDescriptionsDiffer(r.cmeType, other.cmeType);
    TypeColorsDiffer(r.cmeType, other.cmeType);
  }

  /** The probability bar is as wide, in percent, as the printed
      probability, and a probability in [0, 1] keeps it within [0, 100]. */
  lemma RenderProbabilityBar(r: CmeResult)
    requires 0.0 <= r.probability <= 1.0
    ensures var v := Render(Some(r)).value;
            v.probabilityBar == v.probabilityPercent && 0.0 <= v.probabilityBar <= 100.0
  {
  }

  /** The interpretation tells a detection from a quiet result and, for a
      detection, one type from another. */
  lemma RenderInterpretation(r: CmeResult, other: CmeResult)
    ensures r.detected != other.detected ==>
              Render(Some(r)).value.interpretation != Render(Some(other)).value.interpretation
    ensures r.detected && other.detected && r.cmeType != other.cmeType ==>
              Render(Some(r)).value.interpretation != Render(Some(other)).value.interpretation
  {
    if r.detected && !other.detected {
      InterpretationFollowsDetection(TypeName(r.cmeType), TypeName(other.cmeType));
    } else if !r.detected && other.detected {
      InterpretationFollowsDetection(TypeName(other.cmeType), TypeName(r.cmeType));
    } else if r.detected && other.detected && r.cmeType != other.cmeType {
      InterpretationNamesType(r.cmeType, other.cmeType);
    }
  }

  /** The temperature bars are the first (at most 20) samples of the series,
      in thousands. */
  lemma RenderTemperatureBars(r: CmeResult, i: nat)
    requires r.timeSeries.Some? && i < 20
    requires i < |r.timeSeries.value.timestamps| && i < |r.timeSeries.value.temperature|
    ensures var bars := Render(Some(r)).value.temperatureBars;
            i < |bars| && bars[i].temperature.value * 1000.0 == r.timeSeries.value.temperature[i]
  {
    ChartTemperatureInThousands(r.timeSeries.value, i);
  }
}
