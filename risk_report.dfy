/**
 * The patient report of app.py: the clinical risk factors listed beside the
 * vitals chart, the colour band of the risk gauge, and the verdict shown
 * under it. The classifier's outputs (its predicted label and the
 * probability of class 1) are inputs here.
 */
module RiskReport {
  import opened Encoding

  /** The warnings the report can list, in the order it lists them. */
  datatype RiskFactor = SystolicHypertension | DiastolicHypertension | ElevatedCholesterol | Obesity

  const SystolicLimit: int := 140
  const DiastolicLimit: int := 90
  const CholesterolLimit: int := 1
  const WeightLimit: int := 100

  /** The position of a warning in the report. */
  function Rank(f: RiskFactor): (r: nat)
    ensures r < 4
  {
    match f
    case SystolicHypertension => 0
    case DiastolicHypertension => 1
    case ElevatedCholesterol => 2
    case Obesity => 3
  }

  /** The rule of each warning, read off the raw feature vector. */
  predicate Present(f: RiskFactor, features: seq<int>)
    requires |features| == FeatureCount
  {
    match f
    case SystolicHypertension => features[SystolicSlot] > SystolicLimit
    case DiastolicHypertension => features[DiastolicSlot] > DiastolicLimit
    case ElevatedCholesterol => features[CholesterolSlot] > CholesterolLimit
    case Obesity => features[WeightSlot] > WeightLimit
  }

  /**
   * The "Risk Factors Identified" panel. Each rule is tested on its own and
   * counted; the all-clear message appears when the count stays zero.
   */
  method IdentifyRiskFactors(features: seq<int>) returns (warnings: seq<RiskFactor>, riskCount: int, allClear: bool)
    requires |features| == FeatureCount
    ensures forall f :: f in warnings <==> Present(f, features)
    ensures forall i, j :: 0 <= i < j < |warnings| ==> Rank(warnings[i]) < Rank(warnings[j])
    ensures riskCount == |warnings| && 0 <= riskCount <= 4
    ensures allClear <==> riskCount == 0
    ensures allClear <==> forall f :: !Present(f, features)
  {
    warnings := [];
    riskCount := 0;
    if features[SystolicSlot] > SystolicLimit {
      warnings := warnings + [SystolicHypertension];
      riskCount := riskCount + 1;
    }
    if features[DiastolicSlot] > DiastolicLimit {
      warnings := warnings + [DiastolicHypertension];
      riskCount := riskCount + 1;
    }
    if features[CholesterolSlot] > CholesterolLimit {
      warnings := warnings + [ElevatedCholesterol];
      riskCount := riskCount + 1;
    }
    if features[WeightSlot] > WeightLimit {
      warnings := warnings + [Obesity];
      riskCount := riskCount + 1;
    }
    allClear := riskCount == 0;
    assert !allClear ==> warnings[0] in warnings;
  }

  /**
   * On an encoded form each rule reads the field the encoder wrote into its
   * slot: the report's positions agree with the feature order.
   */
  lemma RulesOnForm(f: Form)
    requires f.cholesterol in LevelOptions && f.glucose in LevelOptions
    ensures Present(SystolicHypertension, Features(f)) <==> f.systolic > SystolicLimit
    ensures Present(DiastolicHypertension, Features(f)) <==> f.diastolic > DiastolicLimit
    ensures Present(ElevatedCholesterol, Features(f)) <==> f.cholesterol != "Normal"
    ensures Present(Obesity, Features(f)) <==> f.weight > WeightLimit
  {
  }

  /** The form as first shown raises no warning. */
  lemma InitialFormIsAllClear(f: RiskFactor)
    ensures !Present(f, Features(InitialForm))
  {
    InitialFormEncoding();
  }

  /** The gauge's colour bands. */
  datatype RiskBand = LowBand | ModerateBand | HighBand

  const LowColor: string := "#10B981"
  const ModerateColor: string := "#F59E0B"
  const HighColor: string := "#EF4444"

  function Severity(b: RiskBand): nat
  {
    match b
    case LowBand => 0
    case ModerateBand => 1
    case HighBand => 2
  }

  /** The band of a risk percentage: below 30, from 30 to below 70, from 70. */
  function Band(pct: real): (b: RiskBand)
    ensures b == LowBand <==> pct < 30.0
    ensures b == ModerateBand <==> 30.0 <= pct < 70.0
    ensures b == HighBand <==> 70.0 <= pct
  {
    if pct < 30.0 then LowBand else if pct < 70.0 then ModerateBand else HighBand
  }

  function BandColor(b: RiskBand): string
  {
    match b
    case LowBand => LowColor
    case ModerateBand => ModerateColor
    case HighBand => HighColor
  }

  /** The colour `plot_gauge` draws the number and bar in. */
  function GaugeColor(pct: real): (color: string)
    ensures color == BandColor(Band(pct))
    ensures color in {LowColor, ModerateColor, HighColor}
  {
    if pct < 30.0 then LowColor else if pct < 70.0 then ModerateColor else HighColor
  }

  /** A higher percentage never gets a milder band. */
  lemma BandMonotone(p: real, q: real)
    requires p <= q
    ensures Severity(Band(p)) <= Severity(Band(q))
  {
  }

  /** The three colours are distinct, so the colour tells the band. */
  lemma GaugeColorDeterminesBand(p: real, q: real)
    ensures GaugeColor(p) == GaugeColor(q) <==> Band(p) == Band(q)
  {
  }

  /** The risk percentage: the classifier's class-1 probability times 100. */
  function RiskPercent(classOneProbability: real): (pct: real)
    requires 0.0 <= classOneProbability <= 1.0
    ensures 0.0 <= pct <= 100.0
    ensures Band(pct) == LowBand <==> classOneProbability < 0.3
    ensures Band(pct) == HighBand <==> classOneProbability >= 0.7
  {
    classOneProbability * 100.0
  }

  /** The verdict under the gauge, decided by the predicted label alone. */
  datatype Verdict = HighRiskDetected | LowRiskProfile

  function VerdictOf(prediction: int): (v: Verdict)
    ensures v == HighRiskDetected <==> prediction == 1
  {
    if prediction == 1 then HighRiskDetected else LowRiskProfile
  }
}
