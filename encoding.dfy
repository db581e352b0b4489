/**
 * The patient form of the dashboard page of app.py and the feature vector
 * it is turned into for the classifier: the bounds of the number inputs,
 * the codes of the radio, slider and checkbox widgets, and the fixed order
 * of the eleven features.
 */
module Encoding {
  import opened Wrappers

  /** Positions in the feature vector. */
  const FeatureCount: nat := 11
  const AgeSlot: nat := 0
  const GenderSlot: nat := 1
  const HeightSlot: nat := 2
  const WeightSlot: nat := 3
  const SystolicSlot: nat := 4
  const DiastolicSlot: nat := 5
  const CholesterolSlot: nat := 6
  const GlucoseSlot: nat := 7
  const SmokeSlot: nat := 8
  const AlcoholSlot: nat := 9
  const ActiveSlot: nat := 10

  /** A `number_input` widget: its minimum, maximum and initial value. */
  datatype NumberInput = NumberInput(lo: int, hi: int, initial: int)

  const AgeInput := NumberInput(30, 100, 50)
  const HeightInput := NumberInput(100, 250, 165)
  const WeightInput := NumberInput(30, 200, 65)
  const SystolicInput := NumberInput(90, 200, 120)
  const DiastolicInput := NumberInput(60, 150, 80)

  predicate Admits(input: NumberInput, v: int)
  {
    input.lo <= v <= input.hi
  }

  /** The options of the gender radio and of the two ordinal sliders, in display order. */
  const GenderOptions: seq<string> := ["Female", "Male"]
  const LevelOptions: seq<string> := ["Normal", "Above Normal", "Well Above Normal"]

  /** What the form holds when "Analyze Risk Profile" is pressed. */
  datatype Form = Form(
    age: int, gender: string, height: int, weight: int,
    systolic: int, diastolic: int,
    cholesterol: string, glucose: string,
    smoker: bool, alcohol: bool, active: bool)

  /** The values the widgets can hold: numbers within their inputs' bounds, slider labels among the options. */
  predicate WidgetValues(f: Form)
  {
    && Admits(AgeInput, f.age)
    && f.gender in GenderOptions
    && Admits(HeightInput, f.height)
    && Admits(WeightInput, f.weight)
    && Admits(SystolicInput, f.systolic)
    && Admits(DiastolicInput, f.diastolic)
    && f.cholesterol in LevelOptions
    && f.glucose in LevelOptions
  }

  /** The form as first shown: every input at its initial value, first options, boxes unticked. */
  const InitialForm: Form := Form(
    AgeInput.initial, GenderOptions[0], HeightInput.initial, WeightInput.initial,
    SystolicInput.initial, DiastolicInput.initial,
    LevelOptions[0], LevelOptions[0], false, false, false)

  /** Gender code: 1 for "Female", 2 for anything else. */
  function GenderCode(choice: string): (code: int)
    ensures code in {1, 2}
    ensures code == 1 <==> choice == "Female"
    ensures choice in GenderOptions ==> GenderOptions[code - 1] == choice
  {
    if choice == "Female" then 1 else 2
  }

  /**
   * The dictionary lookup for cholesterol and glucose: a slider label's code
   * is its 1-based position among the options; any other key is missing.
   */
  function LevelCode(option: string): (code: Option<int>)
    ensures code.Some? <==> option in LevelOptions
    ensures code.Some? ==> 1 <= code.value <= 3 && LevelOptions[code.value - 1] == option
  {
    if option == "Normal" then Some(1)
    else if option == "Above Normal" then Some(2)
    else if option == "Well Above Normal" then Some(3)
    else None
  }

  /** A checkbox's code. */
  function CheckboxCode(checked: bool): (code: int)
    ensures code in {0, 1}
    ensures code == 1 <==> checked
  {
    if checked then 1 else 0
  }

  /** The feature vector handed to the classifier, in its fixed order. */
  function Features(f: Form): (v: seq<int>)
    requires f.cholesterol in LevelOptions && f.glucose in LevelOptions
    ensures |v| == FeatureCount
  {
    [ f.age, GenderCode(f.gender), f.height, f.weight, f.systolic, f.diastolic,
      LevelCode(f.cholesterol).value, LevelCode(f.glucose).value,
      CheckboxCode(f.smoker), CheckboxCode(f.alcohol), CheckboxCode(f.active) ]
  }

  /** The box of vectors the form can produce: every slot in its input's or code's range. */
  predicate InFeatureRange(v: seq<int>)
  {
    && |v| == FeatureCount
    && Admits(AgeInput, v[AgeSlot])
    && v[GenderSlot] in {1, 2}
    && Admits(HeightInput, v[HeightSlot])
    && Admits(WeightInput, v[WeightSlot])
    && Admits(SystolicInput, v[SystolicSlot])
    && Admits(DiastolicInput, v[DiastolicSlot])
    && 1 <= v[CholesterolSlot] <= 3
    && 1 <= v[GlucoseSlot] <= 3
    && v[SmokeSlot] in {0, 1}
    && v[AlcoholSlot] in {0, 1}
    && v[ActiveSlot] in {0, 1}
  }

  /** Reads a feature vector back into the form that produced it. */
  function DecodeFeatures(v: seq<int>): (f: Option<Form>)
    ensures f.Some? ==> f.value.cholesterol in LevelOptions && f.value.glucose in LevelOptions
    ensures f.Some? ==> Features(f.value) == v
  {
    if |v| == FeatureCount && v[GenderSlot] in {1, 2}
       && 1 <= v[CholesterolSlot] <= 3 && 1 <= v[GlucoseSlot] <= 3
       && v[SmokeSlot] in {0, 1} && v[AlcoholSlot] in {0, 1} && v[ActiveSlot] in {0, 1}
    then
      Some(Form(v[AgeSlot], GenderOptions[v[GenderSlot] - 1], v[HeightSlot], v[WeightSlot],
                v[SystolicSlot], v[DiastolicSlot],
                LevelOptions[v[CholesterolSlot] - 1], LevelOptions[v[GlucoseSlot] - 1],
                v[SmokeSlot] == 1, v[AlcoholSlot] == 1, v[ActiveSlot] == 1))
    else None
  }

  /** The encoding loses nothing: every form the widgets can hold is recovered from its vector. */
  lemma DecodeEncode(f: Form)
    requires f.gender in GenderOptions && f.cholesterol in LevelOptions && f.glucose in LevelOptions
    ensures DecodeFeatures(Features(f)) == Some(f)
  {
  }

  /** And every decodable vector is the encoding of the form it decodes to. */
  lemma EncodeDecode(v: seq<int>)
    requires DecodeFeatures(v).Some?
    ensures DecodeFeatures(v).value.cholesterol in LevelOptions
    ensures DecodeFeatures(v).value.glucose in LevelOptions
    ensures Features(DecodeFeatures(v).value) == v
  {
  }

  /** Every form the widgets can hold is encoded inside the feature box. */
  lemma FeaturesInRange(f: Form)
    requires WidgetValues(f)
    ensures InFeatureRange(Features(f))
  {
  }

  /** And every vector in the box is the encoding of a form the widgets can hold. */
  lemma RangeIsReachable(v: seq<int>)
    requires InFeatureRange(v)
    ensures DecodeFeatures(v).Some?
    ensures WidgetValues(DecodeFeatures(v).value)
    ensures Features(DecodeFeatures(v).value) == v
  {
  }

  /** The initial form is one the widgets can hold, and its encoding. */
  lemma InitialFormEncoding()
    ensures WidgetValues(InitialForm)
    ensures Features(InitialForm) == [50, 1, 165, 65, 120, 80, 1, 1, 0, 0, 0]
  {
  }

  /** The ordinal codes keep the order of the slider. */
  lemma LevelCodeMonotone(i: nat, j: nat)
    requires i < j < |LevelOptions|
    ensures LevelCode(LevelOptions[i]).value < LevelCode(LevelOptions[j]).value
  {
  }
}
