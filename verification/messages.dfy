/** The per-parameter message tables of the analyzer. Each table picks an
    `Advice`; `Text` gives its wording exactly as shown to staff. */
module Messages {
  import opened PoolTypes
  import opened Constants
  import opened Classifier

  /** Every message the analyzer can show. The `...Adjust` entries are the
      initial texts analyzeReadings in services/poolAnalyzer.ts keeps when none
      of its branches applies. */
  datatype Advice =
    | ChlorineOptimal | ChlorineAcceptable | ChlorineLow | ChlorineHigh | ChlorineAdjust
    | PhBalanced | PhAdjust
    | TemperatureSafe | TemperatureExceeds
    | FlowOptimal | FlowAcceptable | FlowLow | FlowHigh | FlowAdjust
    | AlkalinityBuffering | AlkalinityAcceptable | AlkalinityLow | AlkalinityHigh | AlkalinityAdjust
    | CalciumProtects | CalciumLow | CalciumHigh | CalciumAdjust
    | TdsGood | TdsHigh
    | LsiBalanced | LsiCorrosive | LsiScaling

  /** The wording of each message, verbatim. */
  function Text(a: Advice): string
  {
    match a
    case ChlorineOptimal => "Sanitizer level is optimal. Continue daily monitoring."
    case ChlorineAcceptable => "Chlorine is acceptable. Continue monitoring and adjust as needed."
    case ChlorineLow => "Chlorine is critically low. Shock the water immediately and increase daily dosage."
    case ChlorineHigh => "Chlorine is too high. Stop adding chlorine and allow level to decrease naturally."
    case ChlorineAdjust => "Adjust chlorine to ensure proper sanitation."
    case PhBalanced => "pH is perfectly balanced."
    case PhAdjust => "Adjust pH to prevent irritation and equipment damage."
    case TemperatureSafe => "Water temperature is in a safe and comfortable range."
    case TemperatureExceeds => "Temperature exceeds recommended limit of 104\U{00B0}F for spas."
    case FlowOptimal => "Flow rate is optimal for filtration and feature performance."
    case FlowAcceptable => "Flow is acceptable, but monitor for any circulation issues."
    case FlowLow => "Flow is low. Check for obstructions, clean filters, and inspect pump."
    case FlowHigh => "Flow is high. This may indicate an issue or cause unnecessary wear on equipment. Check pump settings."
    case FlowAdjust => "Adjust flow rate to ensure proper circulation and filtration."
    case AlkalinityBuffering => "Alkalinity is buffering pH effectively."
    case AlkalinityAcceptable => "Alkalinity is acceptable but should be monitored closely."
    case AlkalinityLow => "Alkalinity is low. Add sodium bicarbonate (biocarb) to raise and protect pH."
    case AlkalinityHigh => "Alkalinity is high, which can cause pH to drift up. Add muriatic acid carefully to lower."
    case AlkalinityAdjust => "Adjust to stabilize pH and prevent fluctuations."
    case CalciumProtects => "Calcium level protects surfaces."
    case CalciumLow => "Hardness is low, which can cause etching. Add calcium chloride to increase."
    case CalciumHigh => "Hardness is high, which can cause scaling. Consider a partial drain and refill with softer water."
    case CalciumAdjust => "Adjust to prevent scaling or etching of pool surfaces."
    case TdsGood => "TDS level is good."
    case TdsHigh => "High TDS can reduce chlorine effectiveness. Consider partial drain and refill."
    case LsiBalanced => "Water is balanced and stable."
    case LsiCorrosive => "Water is corrosive, which can damage surfaces and equipment."
    case LsiScaling => "Water is prone to scaling, which can cause cloudy water and clog equipment."
  }

  /** The five messages of a parameter whose remedy depends on the direction
      of the deviation; `fallback` is kept when no branch applies. */
  datatype Remedies = Remedies(ideal: Advice, acceptable: Advice, low: Advice, high: Advice, fallback: Advice)

  predicate Distinct(t: Remedies)
  {
    && t.ideal != t.acceptable && t.ideal != t.low && t.ideal != t.high && t.ideal != t.fallback
    && t.acceptable != t.low && t.acceptable != t.high && t.acceptable != t.fallback
    && t.low != t.high && t.low != t.fallback && t.high != t.fallback
  }

  const ChlorineRemedies := Remedies(ChlorineOptimal, ChlorineAcceptable, ChlorineLow, ChlorineHigh, ChlorineAdjust)
  const FlowRemedies := Remedies(FlowOptimal, FlowAcceptable, FlowLow, FlowHigh, FlowAdjust)
  const AlkalinityRemedies := Remedies(AlkalinityBuffering, AlkalinityAcceptable, AlkalinityLow, AlkalinityHigh, AlkalinityAdjust)

  /** Status first, then the side of the outer band the value fell on. */
  function DirectionalMessage(v: real, range: Range, t: Remedies): (m: Advice)
    ensures Distinct(t) && WellFormed(range) ==>
              && (m == t.ideal <==> GetStatus(v, range) == Ideal)
              && (m == t.acceptable <==> GetStatus(v, range) == Acceptable)
              && (m == t.low <==> v < OuterBand(range).lo)
              && (m == t.high <==> OuterBand(range).hi < v)
              && m != t.fallback
  {
    var status := GetStatus(v, range);
    if status == Ideal then t.ideal
    else if status == Acceptable then t.acceptable
    else if v < OuterBand(range).lo then t.low
    else if v > OuterBand(range).hi then t.high
    else t.fallback
  }

  /** Critically low exactly below 1.0 ppm, too high exactly above 10.0 ppm. */
  function ChlorineMessage(v: real): (m: Advice)
    ensures m == ChlorineLow <==> v < 1.0
    ensures m == ChlorineHigh <==> v > 10.0
    ensures m == ChlorineOptimal <==> 2.0 <= v <= 5.0
    ensures m == ChlorineAcceptable <==> (1.0 <= v < 2.0 || 5.0 < v <= 10.0)
    ensures m != ChlorineAdjust
  {
    DirectionalMessage(v, RangeFor(Chlorine), ChlorineRemedies)
  }

  /** Low exactly below 30 GPM, high exactly above 90 GPM. */
  function FlowMessage(v: real): (m: Advice)
    ensures m == FlowLow <==> v < 30.0
    ensures m == FlowHigh <==> v > 90.0
    ensures m == FlowOptimal <==> 40.0 <= v <= 80.0
    ensures m == FlowAcceptable <==> (30.0 <= v < 40.0 || 80.0 < v <= 90.0)
    ensures m != FlowAdjust
  {
    DirectionalMessage(v, RangeFor(Flow), FlowRemedies)
  }

  /** Low exactly below 60 ppm, high exactly above 180 ppm. */
  function AlkalinityMessage(v: real): (m: Advice)
    ensures m == AlkalinityLow <==> v < 60.0
    ensures m == AlkalinityHigh <==> v > 180.0
    ensures m == AlkalinityBuffering <==> 80.0 <= v <= 120.0
    ensures m == AlkalinityAcceptable <==> (60.0 <= v < 80.0 || 120.0 < v <= 180.0)
    ensures m != AlkalinityAdjust
  {
    DirectionalMessage(v, RangeFor(TotalAlkalinity), AlkalinityRemedies)
  }

  /** One text for an ideal pH, one for everything else. */
  function PhMessage(v: real): (m: Advice)
    ensures m == PhAdjust <==> v < 7.2 || 7.8 < v
    ensures m == PhBalanced || m == PhAdjust
  {
    if GetStatus(v, RangeFor(Ph)) == Ideal then PhBalanced else PhAdjust
  }

  /** The over-limit text is used for every ActionRequired temperature,
      including those below 70 degrees. */
  function TemperatureMessage(v: real): (m: Advice)
    ensures m == TemperatureExceeds <==> v < 70.0 || 104.0 < v
    ensures m == TemperatureSafe || m == TemperatureExceeds
  {
    if GetStatus(v, RangeFor(Temperature)) != ActionRequired then TemperatureSafe else TemperatureExceeds
  }

  /** Calcium hardness compares against the ideal band only. */
  function CalciumMessage(v: real): (m: Advice)
    ensures m == CalciumLow <==> v < 200.0
    ensures m == CalciumHigh <==> v > 400.0
    ensures m == CalciumProtects <==> 200.0 <= v <= 400.0
    ensures m != CalciumAdjust
  {
    if GetStatus(v, RangeFor(CalciumHardness)) == Ideal then CalciumProtects
    else if v < RangeFor(CalciumHardness).ideal.lo then CalciumLow
    else if v > RangeFor(CalciumHardness).ideal.hi then CalciumHigh
    else CalciumAdjust
  }

  /** The high-TDS text is used for every ActionRequired TDS, including those below 400 ppm. */
  function TdsMessage(v: real): (m: Advice)
    ensures m == TdsHigh <==> v < 400.0 || 2000.0 < v
    ensures m == TdsGood || m == TdsHigh
  {
    if GetStatus(v, RangeFor(Tds)) != ActionRequired then TdsGood else TdsHigh
  }

  /** The index message looks at the ideal bounds only, not at the status. */
  function LsiMessage(lsi: real): (m: Advice)
    ensures m == LsiCorrosive <==> lsi < -0.3
    ensures m == LsiScaling <==> lsi > 0.3
    ensures m == LsiBalanced <==> GetStatus(lsi, RangeFor(Lsi)) == Ideal
  {
    if lsi < RangeFor(Lsi).ideal.lo then LsiCorrosive
    else if lsi > RangeFor(Lsi).ideal.hi then LsiScaling
    else LsiBalanced
  }

  /** Messages that ignore the direction or tier of the deviation. */
  lemma DirectionBlindMessages()
    ensures TemperatureMessage(60.0) == TemperatureExceeds
    ensures TdsMessage(300.0) == TdsHigh
    ensures GetStatus(0.4, RangeFor(Lsi)) == Acceptable && LsiMessage(0.4) == LsiScaling
    ensures GetStatus(-0.4, RangeFor(Lsi)) == Acceptable && LsiMessage(-0.4) == LsiCorrosive
  {
  }
}
