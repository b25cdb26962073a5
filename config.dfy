/**
 * Model settings of the dashboard (main.py, lines 15-27 and 55-85): the labels of the two
 * radio groups, the suffixes they select, the path of the weights file built from those
 * suffixes and the confidence threshold taken from the slider.
 */
module ModelConfig {
  import opened Options

  // Labels of the "Select Model" radio group (main.py:16-19).
  const DetectModel: string := "Object Detection"
  const SegmentModel: string := "Object Segmentation"
  const PoseModel: string := "Pose Detection"
  const ModelList: seq<string> := [DetectModel, SegmentModel, PoseModel]

  // Labels of the "Select Model Weight" radio group (main.py:22-27).
  const NanoWeight: string := "Nano"
  const SmallWeight: string := "Small"
  const MediumWeight: string := "Medium"
  const LargeWeight: string := "Large"
  const ExtraLargeWeight: string := "Extra Large"
  const WeightList: seq<string> := [NanoWeight, SmallWeight, MediumWeight, LargeWeight, ExtraLargeWeight]

  // The fixed parts of the weights file name.
  const WeightsStem: string := "/yolov8"
  const WeightsExtension: string := ".pt"

  /** The three task suffixes, and the five size letters, in the order of their labels. */
  const ModelSuffixes: seq<string> := ["", "-seg", "-pose"]
  const WeightSuffixes: seq<char> := ['n', 's', 'm', 'l', 'x']

  /**
   * The if/elif chain that sets MODEL_SUFFIX; None is the error branch, in which the
   * suffix is never assigned.
   */
  function ModelSuffix(modelType: string): (r: Option<string>)
    ensures r.Some? <==> modelType in ModelList
    ensures r.Some? ==> r.value in ModelSuffixes
  {
    if modelType == DetectModel then Some("")
    else if modelType == SegmentModel then Some("-seg")
    else if modelType == PoseModel then Some("-pose")
    else None
  }

  /**
   * The if/elif chain that sets MODEL_WEIGHT_SUFFIX; None is the error branch.
   */
  function WeightSuffix(modelWeight: string): (r: Option<char>)
    ensures r.Some? <==> modelWeight in WeightList
    ensures r.Some? ==> r.value in WeightSuffixes
  {
    if modelWeight == NanoWeight then Some('n')
    else if modelWeight == SmallWeight then Some('s')
    else if modelWeight == MediumWeight then Some('m')
    else if modelWeight == LargeWeight then Some('l')
    else if modelWeight == ExtraLargeWeight then Some('x')
    else None
  }

  /** The task label that selects a given suffix, if any: the task table read backwards. */
  function ModelTypeOfSuffix(suffix: string): Option<string>
  {
    if suffix == "" then Some(DetectModel)
    else if suffix == "-seg" then Some(SegmentModel)
    else if suffix == "-pose" then Some(PoseModel)
    else None
  }

  /** The size label that selects a given letter, if any: the size table read backwards. */
  function WeightOfSuffix(letter: char): Option<string>
  {
    match letter
    case 'n' => Some(NanoWeight)
    case 's' => Some(SmallWeight)
    case 'm' => Some(MediumWeight)
    case 'l' => Some(LargeWeight)
    case 'x' => Some(ExtraLargeWeight)
    case _ => None
  }

  /** The task table is a bijection between the three labels and the three suffixes. */
  lemma ModelSuffixBijective(modelType: string, suffix: string)
    ensures ModelSuffix(modelType) == Some(suffix) <==> ModelTypeOfSuffix(suffix) == Some(modelType)
  {
  }

  /** The size table is a bijection between the five labels and the five letters. */
  lemma WeightSuffixBijective(modelWeight: string, letter: char)
    ensures WeightSuffix(modelWeight) == Some(letter) <==> WeightOfSuffix(letter) == Some(modelWeight)
  {
  }

  /** The two error messages of the chains (main.py:68 and main.py:82). */
  datatype SelectionError = ModelNotSelected | WeightNotSelected

  /** Either the path of the weights file or the errors reported instead, in display order. */
  datatype PathResult = Built(path: string) | Failed(errors: seq<SelectionError>)

  /**
   * The model path of main.py:85: the weights directory, "/yolov8", the size letter,
   * the task suffix and ".pt". When a chain took its error branch the message is shown
   * and no path is built.
   */
  function ModelPath(modelDirectory: string, modelType: string, modelWeight: string): (r: PathResult)
    ensures r.Built? <==> modelType in ModelList && modelWeight in WeightList
    ensures r.Failed? ==> (ModelNotSelected in r.errors <==> modelType !in ModelList)
    ensures r.Failed? ==> (WeightNotSelected in r.errors <==> modelWeight !in WeightList)
    ensures r.Failed? ==> |r.errors| == (if modelType in ModelList then 0 else 1) + (if modelWeight in WeightList then 0 else 1)
    ensures r.Failed? ==> r.errors[0] == (if modelType in ModelList then WeightNotSelected else ModelNotSelected)
  {
    match (ModelSuffix(modelType), WeightSuffix(modelWeight))
    case (Some(task), Some(size)) => Built(modelDirectory + WeightsStem + [size] + task + WeightsExtension)
    case (task, size) =>
      Failed((if task.None? then [ModelNotSelected] else []) + (if size.None? then [WeightNotSelected] else []))
  }

  /**
   * Reads a weights path under a directory back into the (task label, size label) pair
   * that builds it, if there is one.
   */
  function ParseModelPath(modelDirectory: string, path: string): Option<(string, string)>
  {
    var prefix := modelDirectory + WeightsStem;
    if |path| < |prefix| + 1 + |WeightsExtension| || path[..|prefix|] != prefix
       || path[|path| - |WeightsExtension|..] != WeightsExtension
    then None
    else
      match (ModelTypeOfSuffix(path[|prefix| + 1..|path| - |WeightsExtension|]), WeightOfSuffix(path[|prefix|]))
      case (Some(modelType), Some(modelWeight)) => Some((modelType, modelWeight))
      case _ => None
  }

  /** Every path built from a selection parses back to that selection. */
  lemma ParseModelPathOfBuilt(modelDirectory: string, modelType: string, modelWeight: string)
    requires ModelPath(modelDirectory, modelType, modelWeight).Built?
    ensures ParseModelPath(modelDirectory, ModelPath(modelDirectory, modelType, modelWeight).path)
            == Some((modelType, modelWeight))
  {
    var prefix := modelDirectory + WeightsStem;
    var task := ModelSuffix(modelType).value;
    var size := WeightSuffix(modelWeight).value;
    var path := ModelPath(modelDirectory, modelType, modelWeight).path;
    assert path == prefix + [size] + task + WeightsExtension;
    assert path[..|prefix|] == prefix;
    assert path[|prefix|] == size;
    assert path[|prefix| + 1..|path| - |WeightsExtension|] == task;
    assert path[|path| - |WeightsExtension|..] == WeightsExtension;
    ModelSuffixBijective(modelType, task);
    WeightSuffixBijective(modelWeight, size);
  }

  /** Every path that parses is the path built from the selection it parses to. */
  lemma BuiltOfParseModelPath(modelDirectory: string, path: string)
    requires ParseModelPath(modelDirectory, path).Some?
    ensures ModelPath(modelDirectory, ParseModelPath(modelDirectory, path).value.0,
                      ParseModelPath(modelDirectory, path).value.1) == Built(path)
  {
    var prefix := modelDirectory + WeightsStem;
    var n := |path| - |WeightsExtension|;
    var (modelType, modelWeight) := ParseModelPath(modelDirectory, path).value;
    var task := path[|prefix| + 1..n];
    var size := path[|prefix|];
    ModelSuffixBijective(modelType, task);
    WeightSuffixBijective(modelWeight, size);
    assert path == path[..|prefix|] + [size] + task + path[n..];
  }

  /** Distinct (task, size) selections give distinct weights paths */
  lemma ModelPathInjective(modelDirectory: string, type1: string, weight1: string, type2: string, weight2: string)
    requires ModelPath(modelDirectory, type1, weight1).Built?
    requires ModelPath(modelDirectory, type1, weight1) == ModelPath(modelDirectory, type2, weight2)
    ensures type1 == type2 && weight1 == weight2
  {
    ParseModelPathOfBuilt(modelDirectory, type1, weight1);
    ParseModelPathOfBuilt(modelDirectory, type2, weight2);
  }

  /** A built path lies under the weights directory and names a ".pt" file "yolov8<size><task>". */
  lemma ModelPathShape(modelDirectory: string, modelType: string, modelWeight: string)
    requires ModelPath(modelDirectory, modelType, modelWeight).Built?
    ensures var path := ModelPath(modelDirectory, modelType, modelWeight).path;
      && |path| >= |modelDirectory| + 11
      && path[..|modelDirectory|] == modelDirectory
      && path[|modelDirectory|..|modelDirectory| + 7] == "/yolov8"
      && path[|modelDirectory| + 7] in WeightSuffixes
      && path[|path| - 3..] == ".pt"
  {
    var path := ModelPath(modelDirectory, modelType, modelWeight).path;
    var task := ModelSuffix(modelType).value;
    var size := WeightSuffix(modelWeight).value;
    assert path == modelDirectory + (WeightsStem + [size] + task + WeightsExtension);
  }

  // Confidence slider (main.py:55): integer values 25..100, default 40, divided by 100.
  const ConfidenceMin: int := 25
  const ConfidenceMax: int := 100
  const ConfidenceDefault: int := 40

  /** A confidence threshold in hundredths: the threshold itself is hundredths / 100. */
  datatype Threshold = Threshold(hundredths: int)

  /** The values the slider can return. */
  predicate InSliderRange(value: int)
  {
    ConfidenceMin <= value <= ConfidenceMax
  }

  /**
   * The threshold for a slider value: the value over 100, so a threshold from 0.25 up to 1.0.
   */
  function Confidence(sliderValue: int): (t: Threshold)
    requires InSliderRange(sliderValue)
    ensures 100 <= 4 * t.hundredths && t.hundredths <= 100
    ensures t.hundredths == sliderValue
  {
    Threshold(sliderValue)
  }

  /** The default slider position is the threshold 0.40; the ends are 0.25 and 1.00. */
  lemma ConfidenceDefaults()
    ensures InSliderRange(ConfidenceDefault) && Confidence(ConfidenceDefault) == Threshold(40)
    ensures Confidence(ConfidenceMin) == Threshold(25) && Confidence(ConfidenceMax) == Threshold(100)
  {
  }
}
