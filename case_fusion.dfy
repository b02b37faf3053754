/** Case-level prediction fusion: the per-image quality score, the filter that
    keeps QC-acceptable predicted images, the per-class collection of
    confidences and quality weights, the four fusion rules, and the final
    sort-and-truncate to the five most confident classes. */
module CaseFusion {
  import opened Types
  import opened Utils
  import opened RealSeq

  datatype FusionMethod = Average | Weighted | Majority | MaxConfidence

  // ===========================================================================
  // Quality score of one QC record
  // ===========================================================================

  function Abs(x: real): real { if x < 0.0 then -x else x }

  /** `Math.max(0, 1 - |brightness - 127.5| / 127.5)`. */
  function BrightnessScore(brightness: real): (s: real)
    ensures 0.0 <= s <= 1.0
    ensures s == 1.0 <==> brightness == 127.5
  {
    Max2(0.0, 1.0 - Abs(brightness - 127.5) / 127.5)
  }

  /** `Math.min(1, contrast / 0.5)`: capped above at 1, not floored. */
  function ContrastScore(contrast: real): (s: real)
    ensures s <= 1.0
    ensures s == 1.0 <==> contrast >= 0.5
    ensures contrast >= 0.0 ==> s >= 0.0
  {
    Min2(1.0, contrast / 0.5)
  }

  /** `Math.min(1, blur / 200)`: capped above at 1, not floored. */
  function SharpnessScore(blur: real): (s: real)
    ensures s <= 1.0
    ensures s == 1.0 <==> blur >= 200.0
    ensures blur >= 0.0 ==> s >= 0.0
  {
    Min2(1.0, blur / 200.0)
  }

  /** The score before the final clamp: the warning-penalised base averaged
      with the three sub-scores. */
  function PreClampScore(qc: QualityControlResults): (p: real) {
    ((1.0 - (|qc.warnings| as real) * 0.1)
      + BrightnessScore(qc.brightness)
      + ContrastScore(qc.contrast)
      + SharpnessScore(qc.blur)) / 4.0
  }

  /** `getQualityScore`: 0 for an unacceptable image, otherwise the clamped
      pre-clamp score. */
  function QualityScore(qc: QualityControlResults): (r: real)
    ensures 0.0 <= r <= 1.0
    ensures !qc.isAcceptable ==> r == 0.0
    ensures qc.isAcceptable && 0.0 <= PreClampScore(qc) <= 1.0 ==> r == PreClampScore(qc)
  {
    if !qc.isAcceptable then 0.0
    else Max2(0.0, Min2(1.0, PreClampScore(qc)))
  }

  /** No warnings, mid-grey brightness, contrast at least 0.5 and blur at
      least 200 give a perfect score. */
  lemma IdealQualityScore(qc: QualityControlResults)
    requires qc.isAcceptable && qc.warnings == []
    requires qc.brightness == 127.5 && qc.contrast >= 0.5 && qc.blur >= 200.0
    ensures QualityScore(qc) == 1.0
  {
    assert PreClampScore(qc) == 1.0;
  }

  /** Each additional warning lowers the pre-clamp score by exactly 0.025. */
  lemma WarningPenalty(qc: QualityControlResults, w: string)
    ensures PreClampScore(qc.(warnings := qc.warnings + [w])) == PreClampScore(qc) - 0.025
  {
    var qc' := qc.(warnings := qc.warnings + [w]);
    assert |qc'.warnings| == |qc.warnings| + 1;
  }

  /** Because the gate treats a high blur value as too blurry while the score
      treats it as sharp, no record the gate produces scores above 0.85: an
      acceptable blur is at most 100 (sharpness at most 0.5) and there is
      always at least one warning. */
  lemma GateScoresAtMost(brightness: real, contrast: real, blur: real)
    ensures QualityScore(QualityGate(brightness, contrast, blur)) <= 0.85
  {
    var qc := QualityGate(brightness, contrast, blur);
    GateAlwaysWarns(brightness, contrast, blur);
    if qc.isAcceptable {
      assert SharpnessScore(blur) <= 0.5;
      assert PreClampScore(qc) <= 0.85;
    }
  }

  // ===========================================================================
  // Images that take part
  // ===========================================================================

  /** One image's prediction with its image's quality score. */
  datatype ImagePrediction = ImagePrediction(prediction: Prediction, qcScore: real)

  /** The filter: a prediction is present and QC marked the image acceptable. */
  predicate Eligible(img: CaseImage) {
    img.prediction.Some? && img.qcResults.isAcceptable
  }

  function ToImagePrediction(img: CaseImage): ImagePrediction
    requires img.prediction.Some?
  {
    ImagePrediction(img.prediction.value, QualityScore(img.qcResults))
  }

  /** `caseData.images.filter(...).map(...)`. */
  function ImagePredictions(images: seq<CaseImage>): seq<ImagePrediction> {
    if |images| == 0 then []
    else
      var head := if Eligible(images[0]) then [ToImagePrediction(images[0])] else [];
      head + ImagePredictions(images[1..])
  }

  /** Every entry comes from an eligible image and has quality in [0, 1]. */
  lemma {:induction false} ImagePredictionsFromEligible(images: seq<CaseImage>)
    ensures forall k :: 0 <= k < |ImagePredictions(images)| ==>
      exists j :: 0 <= j < |images| && Eligible(images[j])
        && ImagePredictions(images)[k] == ToImagePrediction(images[j])
    ensures forall k :: 0 <= k < |ImagePredictions(images)| ==>
      0.0 <= ImagePredictions(images)[k].qcScore <= 1.0
  {
    if |images| == 0 {
      assert ImagePredictions(images) == [];
    } else {
      var rest := images[1..];
      ImagePredictionsFromEligible(rest);
      var head := if Eligible(images[0]) then [ToImagePrediction(images[0])] else [];
      var ips := ImagePredictions(images);
      assert ips == head + ImagePredictions(rest);
      forall k | 0 <= k < |ips|
        ensures exists j :: 0 <= j < |images| && Eligible(images[j]) && ips[k] == ToImagePrediction(images[j])
        ensures 0.0 <= ips[k].qcScore <= 1.0
      {
        if k < |head| {
          assert Eligible(images[0]) && ips[k] == ToImagePrediction(images[0]);
        } else {
          assert ips[k] == ImagePredictions(rest)[k - |head|];
          var j :| 0 <= j < |rest| && Eligible(rest[j])
            && ImagePredictions(rest)[k - |head|] == ToImagePrediction(rest[j]);
          assert images[j + 1] == rest[j];
        }
      }
    }
  }

  /** The number of eligible images in a case. */
  function CountEligible(images: seq<CaseImage>): nat {
    if |images| == 0 then 0
    else (if Eligible(images[0]) then 1 else 0) + CountEligible(images[1..])
  }

  /** The filter keeps every eligible image, one entry per eligible image. */
  lemma {:induction false} ImagePredictionsComplete(images: seq<CaseImage>)
    ensures |ImagePredictions(images)| == CountEligible(images)
    ensures forall j :: 0 <= j < |images| && Eligible(images[j]) ==>
      ToImagePrediction(images[j]) in ImagePredictions(images)
  {
    if |images| > 0 {
      var rest := images[1..];
      ImagePredictionsComplete(rest);
      var head := if Eligible(images[0]) then [ToImagePrediction(images[0])] else [];
      assert ImagePredictions(images) == head + ImagePredictions(rest);
      forall j | 0 <= j < |images| && Eligible(images[j])
        ensures ToImagePrediction(images[j]) in ImagePredictions(images)
      {
        if j > 0 {
          assert images[j] == rest[j - 1];
        }
      }
    }
  }

  /** The filter keeps nothing exactly when no image is eligible. */
  lemma {:induction false} ImagePredictionsEmpty(images: seq<CaseImage>)
    ensures ImagePredictions(images) == [] <==> forall j :: 0 <= j < |images| ==> !Eligible(images[j])
  {
    if |images| > 0 {
      var rest := images[1..];
      ImagePredictionsEmpty(rest);
      if forall j :: 0 <= j < |images| ==> !Eligible(images[j]) {
        forall j | 0 <= j < |rest| ensures !Eligible(rest[j]) {
          assert rest[j] == images[j + 1];
        }
      }
      if ImagePredictions(images) == [] {
        forall j | 0 <= j < |images| ensures !Eligible(images[j]) {
          if j > 0 {
            assert images[j] == rest[j - 1];
          }
        }
      }
    }
  }

  // ===========================================================================
  // Per-class collection
  // ===========================================================================

  /** One `(class, confidence, weight)` entry pushed by the collecting loops. */
  datatype Sample = Sample(className: LesionClass, confidence: real, weight: real)

  /** The entries one image pushes, each with that image's quality score. */
  function PredSamples(preds: seq<ClassPrediction>, w: real): seq<Sample> {
    if |preds| == 0 then []
    else
      var last := preds[|preds| - 1];
      PredSamples(preds[..|preds| - 1], w) + [Sample(last.className, last.confidence, w)]
  }

  /** Every entry the collecting loops push, in push order. */
  function Samples(ips: seq<ImagePrediction>): seq<Sample> {
    if |ips| == 0 then []
    else
      var last := ips[|ips| - 1];
      Samples(ips[..|ips| - 1]) + PredSamples(last.prediction.predictions, last.qcScore)
  }
  /** Pushing the entry of prediction `j` extends the pushed entries by one. */
  lemma {:induction false} PredSamplesSnoc(preds: seq<ClassPrediction>, j: int, w: real)
    requires 0 <= j < |preds|
    ensures PredSamples(preds[..j + 1], w) ==
      PredSamples(preds[..j], w) + [Sample(preds[j].className, preds[j].confidence, w)]
  {
    assert preds[..j + 1][..j] == preds[..j];
  }

  /** Finishing image `i` appends that image's entries. */
  lemma {:induction false} SamplesSnoc(ips: seq<ImagePrediction>, i: int)
    requires 0 <= i < |ips|
    ensures Samples(ips[..i + 1]) ==
      Samples(ips[..i]) + PredSamples(ips[i].prediction.predictions, ips[i].qcScore)
  {
    assert ips[..i + 1][..i] == ips[..i];
  }


  /** The confidences pushed for class `c`, in push order. */
  function ScoresOf(ss: seq<Sample>, c: LesionClass): seq<real> {
    if |ss| == 0 then []
    else
      var init := ScoresOf(ss[..|ss| - 1], c);
      if ss[|ss| - 1].className == c then init + [ss[|ss| - 1].confidence] else init
  }

  /** The quality weights pushed for class `c`, in push order. */
  function WeightsOf(ss: seq<Sample>, c: LesionClass): seq<real> {
    if |ss| == 0 then []
    else
      var init := WeightsOf(ss[..|ss| - 1], c);
      if ss[|ss| - 1].className == c then init + [ss[|ss| - 1].weight] else init
  }

  /** The order in which classes were first seen: the key order of the
      collecting dictionaries. */
  function DiscoveryOrder(ss: seq<Sample>): seq<LesionClass> {
    if |ss| == 0 then []
    else
      var o := DiscoveryOrder(ss[..|ss| - 1]);
      if ss[|ss| - 1].className in o then o else o + [ss[|ss| - 1].className]
  }

  /** How often `c` occurs in one prediction list. */
  function CountIn(preds: seq<ClassPrediction>, c: LesionClass): nat {
    if |preds| == 0 then 0
    else CountIn(preds[..|preds| - 1], c) + (if preds[|preds| - 1].className == c then 1 else 0)
  }

  /** How often `c` occurs across all images' prediction lists. */
  function Occurrences(ips: seq<ImagePrediction>, c: LesionClass): nat {
    if |ips| == 0 then 0
    else Occurrences(ips[..|ips| - 1], c) + CountIn(ips[|ips| - 1].prediction.predictions, c)
  }

  /** Some image lists `c` among its predictions. */
  predicate Observed(ips: seq<ImagePrediction>, c: LesionClass) {
    exists k, j :: 0 <= k < |ips| && 0 <= j < |ips[k].prediction.predictions|
      && ips[k].prediction.predictions[j].className == c
  }

  predicate Distinct<T(==)>(s: seq<T>) {
    forall i, j :: 0 <= i < j < |s| ==> s[i] != s[j]
  }

  /** The recurrences of the collection functions for one more entry. */
  lemma {:induction false} AppendSample(ss: seq<Sample>, s: Sample, c: LesionClass)
    ensures ScoresOf(ss + [s], c) == ScoresOf(ss, c) + (if s.className == c then [s.confidence] else [])
    ensures WeightsOf(ss + [s], c) == WeightsOf(ss, c) + (if s.className == c then [s.weight] else [])
    ensures DiscoveryOrder(ss + [s]) ==
      if s.className in DiscoveryOrder(ss) then DiscoveryOrder(ss) else DiscoveryOrder(ss) + [s.className]
  {
    assert (ss + [s])[..|ss|] == ss;
  }

  /** A class's score list and weight list have the same length. */
  lemma {:induction false} SameLength(ss: seq<Sample>, c: LesionClass)
    ensures |ScoresOf(ss, c)| == |WeightsOf(ss, c)|
  {
    if |ss| > 0 {
      SameLength(ss[..|ss| - 1], c);
    }
  }

  /** The discovery order has no repeats. */
  lemma {:induction false} DiscoveryOrderDistinct(ss: seq<Sample>)
    ensures Distinct(DiscoveryOrder(ss))
  {
    if |ss| > 0 {
      DiscoveryOrderDistinct(ss[..|ss| - 1]);
    }
  }

  /** A class is in the discovery order exactly when some confidence was
      collected for it. */
  lemma {:induction false} DiscoveredIffScored(ss: seq<Sample>, c: LesionClass)
    ensures c in DiscoveryOrder(ss) <==> |ScoresOf(ss, c)| > 0
  {
    if |ss| > 0 {
      DiscoveredIffScored(ss[..|ss| - 1], c);
    }
  }

  /** Index alignment: the k-th collected score and the k-th collected weight
      of class `c` come from one and the same entry, of class `c`. */
  lemma {:induction false} ScoresAligned(ss: seq<Sample>, c: LesionClass)
    ensures |ScoresOf(ss, c)| == |WeightsOf(ss, c)|
    ensures forall k :: 0 <= k < |ScoresOf(ss, c)| ==>
      exists i :: 0 <= i < |ss| && ss[i].className == c &&
                  ss[i].confidence == ScoresOf(ss, c)[k] && ss[i].weight == WeightsOf(ss, c)[k]
  {
    SameLength(ss, c);
    if |ss| > 0 {
      var n := |ss|;
      var init := ss[..n - 1];
      ScoresAligned(init, c);
      forall k | 0 <= k < |ScoresOf(ss, c)|
        ensures exists i :: 0 <= i < |ss| && ss[i].className == c &&
                            ss[i].confidence == ScoresOf(ss, c)[k] && ss[i].weight == WeightsOf(ss, c)[k]
      {
        if k < |ScoresOf(init, c)| {
          var i :| 0 <= i < |init| && init[i].className == c &&
                   init[i].confidence == ScoresOf(init, c)[k] && init[i].weight == WeightsOf(init, c)[k];
          assert ss[i] == init[i];
        } else {
          assert ss[n - 1].className == c;
          assert ScoresOf(ss, c)[k] == ss[n - 1].confidence && WeightsOf(ss, c)[k] == ss[n - 1].weight;
        }
      }
      assert forall k :: 0 <= k < |ScoresOf(ss, c)| ==>
        exists i :: 0 <= i < |ss| && ss[i].className == c &&
                    ss[i].confidence == ScoresOf(ss, c)[k] && ss[i].weight == WeightsOf(ss, c)[k];
    } else {
      assert ScoresOf(ss, c) == [];
    }
  }

  /** Collection distributes over concatenation. */
  lemma {:induction false} ScoresOfConcat(a: seq<Sample>, b: seq<Sample>, c: LesionClass)
    ensures ScoresOf(a + b, c) == ScoresOf(a, c) + ScoresOf(b, c)
  {
    if |b| == 0 {
      assert a + b == a;
    } else {
      var b' := b[..|b| - 1];
      ScoresOfConcat(a, b', c);
      assert (a + b)[..|a + b| - 1] == a + b';
    }
  }

  lemma {:induction false} PredSamplesCount(preds: seq<ClassPrediction>, w: real, c: LesionClass)
    ensures |ScoresOf(PredSamples(preds, w), c)| == CountIn(preds, c)
  {
    if |preds| > 0 {
      var n := |preds|;
      PredSamplesCount(preds[..n - 1], w, c);
      AppendSample(PredSamples(preds[..n - 1], w),
        Sample(preds[n - 1].className, preds[n - 1].confidence, w), c);
    }
  }

  /** The length of a class's score list is the number of times the class
      occurs across the images' prediction lists. */
  lemma {:induction false} ScoresCountOccurrences(ips: seq<ImagePrediction>, c: LesionClass)
    ensures |ScoresOf(Samples(ips), c)| == Occurrences(ips, c)
    ensures |WeightsOf(Samples(ips), c)| == Occurrences(ips, c)
  {
    SameLength(Samples(ips), c);
    if |ips| > 0 {
      var n := |ips|;
      ScoresCountOccurrences(ips[..n - 1], c);
      ScoresOfConcat(Samples(ips[..n - 1]), PredSamples(ips[n - 1].prediction.predictions, ips[n - 1].qcScore), c);
      PredSamplesCount(ips[n - 1].prediction.predictions, ips[n - 1].qcScore, c);
    }
  }

  lemma {:induction false} CountInPositive(preds: seq<ClassPrediction>, c: LesionClass)
    ensures CountIn(preds, c) > 0 <==> exists j :: 0 <= j < |preds| && preds[j].className == c
  {
    if |preds| > 0 {
      var init := preds[..|preds| - 1];
      CountInPositive(init, c);
      if exists j :: 0 <= j < |init| && init[j].className == c {
        var j :| 0 <= j < |init| && init[j].className == c;
        assert preds[j] == init[j];
      }
      if exists j :: 0 <= j < |preds| && preds[j].className == c {
        var j :| 0 <= j < |preds| && preds[j].className == c;
        if j < |init| {
          assert init[j] == preds[j];
        }
      }
    }
  }

  /** A class occurs at all exactly when some image lists it. */
  lemma {:induction false} OccurrencesPositive(ips: seq<ImagePrediction>, c: LesionClass)
    ensures Occurrences(ips, c) > 0 <==> Observed(ips, c)
  {
    if |ips| > 0 {
      var n := |ips|;
      var init := ips[..n - 1];
      var last := ips[n - 1].prediction.predictions;
      OccurrencesPositive(init, c);
      CountInPositive(last, c);
      if Observed(init, c) {
        var k, j :| 0 <= k < |init| && 0 <= j < |init[k].prediction.predictions| &&
                    init[k].prediction.predictions[j].className == c;
        assert ips[k] == init[k];
      }
      if CountIn(last, c) > 0 {
        var j :| 0 <= j < |last| && last[j].className == c;
        assert ips[n - 1].prediction.predictions[j].className == c;
      }
      if Observed(ips, c) {
        var k, j :| 0 <= k < |ips| && 0 <= j < |ips[k].prediction.predictions| &&
                    ips[k].prediction.predictions[j].className == c;
        if k < n - 1 {
          assert init[k] == ips[k];
        }
      }
    }
  }

  /** A class has collected scores exactly when some image lists it. */
  lemma {:induction false} ScoresIffObserved(ips: seq<ImagePrediction>, c: LesionClass)
    ensures |ScoresOf(Samples(ips), c)| == |WeightsOf(Samples(ips), c)|
    ensures |ScoresOf(Samples(ips), c)| > 0 <==> Observed(ips, c)
  {
    ScoresCountOccurrences(ips, c);
    OccurrencesPositive(ips, c);
  }

  /** The discovery order lists exactly the observed classes, each once. */
  lemma {:induction false} DiscoveredIffObserved(ips: seq<ImagePrediction>, c: LesionClass)
    ensures Distinct(DiscoveryOrder(Samples(ips)))
    ensures c in DiscoveryOrder(Samples(ips)) <==> Observed(ips, c)
  {
    DiscoveryOrderDistinct(Samples(ips));
    DiscoveredIffScored(Samples(ips), c);
    ScoresIffObserved(ips, c);
  }

  lemma {:induction false} PredSampleWeights(preds: seq<ClassPrediction>, w: real)
    ensures |PredSamples(preds, w)| == |preds|
    ensures forall i :: 0 <= i < |PredSamples(preds, w)| ==> PredSamples(preds, w)[i].weight == w
  {
    if |preds| > 0 {
      PredSampleWeights(preds[..|preds| - 1], w);
    }
  }

  /** Every entry pushed carries the quality score of the image it came from,
      so it lies in any range that holds every image's quality score. */
  lemma {:induction false} SampleWeightsInRange(ips: seq<ImagePrediction>, lo: real, hi: real)
    requires forall k :: 0 <= k < |ips| ==> lo <= ips[k].qcScore <= hi
    ensures forall i :: 0 <= i < |Samples(ips)| ==> lo <= Samples(ips)[i].weight <= hi
  {
    if |ips| > 0 {
      var n := |ips|;
      assert forall k :: 0 <= k < n - 1 ==> ips[..n - 1][k] == ips[k];
      SampleWeightsInRange(ips[..n - 1], lo, hi);
      PredSampleWeights(ips[n - 1].prediction.predictions, ips[n - 1].qcScore);
      var a: seq<Sample> := Samples(ips[..n - 1]);
      var b: seq<Sample> := PredSamples(ips[n - 1].prediction.predictions, ips[n - 1].qcScore);
      var ss: seq<Sample> := a + b;
      assert Samples(ips) == ss;
      forall i | 0 <= i < |ss| ensures lo <= ss[i].weight <= hi {
        if i >= |a| {
          assert ss[i] == b[i - |a|];
        }
      }
    }
  }

  /** The collected weights of any class lie in the range of the images'
      quality scores. */
  lemma {:induction false} WeightsInRange(ips: seq<ImagePrediction>, c: LesionClass, lo: real, hi: real)
    requires forall k :: 0 <= k < |ips| ==> lo <= ips[k].qcScore <= hi
    ensures forall k :: 0 <= k < |WeightsOf(Samples(ips), c)| ==> lo <= WeightsOf(Samples(ips), c)[k] <= hi
  {
    SampleWeightsInRange(ips, lo, hi);
    ScoresAligned(Samples(ips), c);
  }

  // ===========================================================================
  // Fusion rules
  // ===========================================================================

  /** How many images have `c` as their index-0 prediction. */
  function Votes(ips: seq<ImagePrediction>, c: LesionClass): nat {
    if |ips| == 0 then 0
    else
      var preds := ips[|ips| - 1].prediction.predictions;
      Votes(ips[..|ips| - 1], c) + (if |preds| > 0 && preds[0].className == c then 1 else 0)
  }

  /** The body of the `switch (fusionMethod)` for one class. The empty-list
      cases (where JavaScript would give NaN or -Infinity) never arise, since
      a class only becomes a key once something was pushed for it. */
  function Combine(m: FusionMethod, scores: seq<real>, weights: seq<real>, votes: nat, n: nat): (score: real)
    requires |scores| == |weights|
  {
    match m
    case Average => if |scores| == 0 then 0.0 else Sum(scores) / (|scores| as real)
    case Weighted =>
      var totalWeight := Sum(weights);
      if totalWeight > 0.0 then WeightedSum(scores, weights) / totalWeight else 0.0
    case Majority => if n == 0 then 0.0 else (votes as real) / (n as real)
    case MaxConfidence => if |scores| == 0 then 0.0 else Max(scores)
  }

  /** The fused confidence of class `c` under rule `m`. */
  function FusedScore(m: FusionMethod, ips: seq<ImagePrediction>, c: LesionClass): (score: real) {
    SameLength(Samples(ips), c);
    Combine(m, ScoresOf(Samples(ips), c), WeightsOf(Samples(ips), c), Votes(ips, c), |ips|)
  }

  /** `average` lies between the smallest and the largest collected confidence. */
  lemma {:induction false} AverageWithinRange(ips: seq<ImagePrediction>, c: LesionClass)
    requires Observed(ips, c)
    ensures |ScoresOf(Samples(ips), c)| > 0
    ensures Min(ScoresOf(Samples(ips), c)) <= FusedScore(Average, ips, c) <= Max(ScoresOf(Samples(ips), c))
  {
    ScoresIffObserved(ips, c);
    MeanWithinRange(ScoresOf(Samples(ips), c));
  }

  /** `max_confidence` is the largest collected confidence: it was collected,
      and no collected confidence exceeds it. */
  lemma {:induction false} MaxConfidenceIsLargest(ips: seq<ImagePrediction>, c: LesionClass)
    requires Observed(ips, c)
    ensures FusedScore(MaxConfidence, ips, c) in ScoresOf(Samples(ips), c)
    ensures forall k :: 0 <= k < |ScoresOf(Samples(ips), c)| ==>
      ScoresOf(Samples(ips), c)[k] <= FusedScore(MaxConfidence, ips, c)
  {
    ScoresIffObserved(ips, c);
    MaxIsLargestElement(ScoresOf(Samples(ips), c));
  }

  /** `weighted` with quality weights in [0, 1]: 0 when every collected
      weight is 0, otherwise between the smallest and the largest collected
      confidence. */
  lemma {:induction false} WeightedWithinRange(ips: seq<ImagePrediction>, c: LesionClass)
    requires forall k :: 0 <= k < |ips| ==> 0.0 <= ips[k].qcScore <= 1.0
    requires Observed(ips, c)
    ensures |ScoresOf(Samples(ips), c)| > 0
    ensures var ws := WeightsOf(Samples(ips), c);
      (forall k :: 0 <= k < |ws| ==> ws[k] == 0.0) ==> FusedScore(Weighted, ips, c) == 0.0
    ensures var s, ws := ScoresOf(Samples(ips), c), WeightsOf(Samples(ips), c);
      (exists k :: 0 <= k < |ws| && ws[k] > 0.0) ==>
        Min(s) <= FusedScore(Weighted, ips, c) <= Max(s)
  {
    ScoresIffObserved(ips, c);
    var s, ws := ScoresOf(Samples(ips), c), WeightsOf(Samples(ips), c);
    WeightsInRange(ips, c, 0.0, 1.0);
    SumOfNonNegatives(ws);
    if forall k :: 0 <= k < |ws| ==> ws[k] == 0.0 {
      UniformWeights(s, ws, 0.0);
    }
    if exists k :: 0 <= k < |ws| && ws[k] > 0.0 {
      WeightedMeanWithinRange(s, ws);
    }
  }

  lemma {:induction false} VotesAtMostImages(ips: seq<ImagePrediction>, c: LesionClass)
    ensures Votes(ips, c) <= |ips|
  {
    if |ips| > 0 {
      VotesAtMostImages(ips[..|ips| - 1], c);
    }
  }

  /** `majority` is the share of all filtered images whose index-0
      prediction is `c`, a number in [0, 1]. */
  lemma {:induction false} MajorityIsVoteShare(ips: seq<ImagePrediction>, c: LesionClass)
    requires |ips| > 0
    ensures FusedScore(Majority, ips, c) == (Votes(ips, c) as real) / (|ips| as real)
    ensures 0.0 <= FusedScore(Majority, ips, c) <= 1.0
  {
    VotesAtMostImages(ips, c);
    DivisionBounds(Votes(ips, c) as real, |ips| as real, 1.0);
    DivisionBounds(Votes(ips, c) as real, |ips| as real, 0.0);
  }

  /** On a case, the majority denominator is the number of eligible images. */
  lemma CaseMajorityShare(images: seq<CaseImage>, c: LesionClass)
    requires CountEligible(images) > 0
    ensures FusedScore(Majority, ImagePredictions(images), c) ==
      (Votes(ImagePredictions(images), c) as real) / (CountEligible(images) as real)
  {
    ImagePredictionsComplete(images);
    MajorityIsVoteShare(ImagePredictions(images), c);
  }

  /** With a single image of positive quality the weight cancels: `weighted`
      gives the same as `average`. */
  lemma {:induction false} SingleImageWeightedIsAverage(ip: ImagePrediction, c: LesionClass)
    requires ip.qcScore > 0.0
    ensures FusedScore(Weighted, [ip], c) == FusedScore(Average, [ip], c)
  {
    var ss := Samples([ip]);
    var s, ws := ScoresOf(ss, c), WeightsOf(ss, c);
    SameLength(ss, c);
    WeightsInRange([ip], c, ip.qcScore, ip.qcScore);
    UniformWeights(s, ws, ip.qcScore);
    if |s| > 0 {
      CancelFactor(Sum(s), |s| as real, ip.qcScore);
    }
  }

  // ===========================================================================
  // Sort and truncate
  // ===========================================================================

  predicate SortedByConfidence(s: seq<ClassPrediction>) {
    forall i, j :: 0 <= i < j < |s| ==> s[i].confidence >= s[j].confidence
  }

  predicate DistinctClasses(s: seq<ClassPrediction>) {
    forall i, j :: 0 <= i < j < |s| ==> s[i].className != s[j].className
  }

  /** Inserts `x` before the first entry that is not more confident, so that
      entries of equal confidence keep their original order. */
  function InsertByConfidence(x: ClassPrediction, s: seq<ClassPrediction>): seq<ClassPrediction> {
    if |s| == 0 || s[0].confidence <= x.confidence then [x] + s
    else [s[0]] + InsertByConfidence(x, s[1..])
  }

  /** `.sort((a, b) => b.confidence - a.confidence)`, a stable sort. */
  function SortByConfidence(s: seq<ClassPrediction>): seq<ClassPrediction> {
    if |s| == 0 then [] else InsertByConfidence(s[0], SortByConfidence(s[1..]))
  }

  /** `.slice(0, n)`. */
  function Take(s: seq<ClassPrediction>, n: nat): seq<ClassPrediction> {
    if |s| <= n then s else s[..n]
  }

  lemma {:induction false} InsertIsPermutation(x: ClassPrediction, s: seq<ClassPrediction>)
    ensures multiset(InsertByConfidence(x, s)) == multiset(s) + multiset{x}
    ensures |InsertByConfidence(x, s)| == |s| + 1
  {
    if |s| > 0 && s[0].confidence > x.confidence {
      InsertIsPermutation(x, s[1..]);
      assert s == [s[0]] + s[1..];
    }
  }

  /** Every entry of `InsertByConfidence(x, s)` is `x` or an entry of `s`. */
  lemma {:induction false} InsertedFrom(x: ClassPrediction, s: seq<ClassPrediction>, i: int)
    requires 0 <= i < |InsertByConfidence(x, s)|
    ensures InsertByConfidence(x, s)[i] == x ||
            exists j :: 0 <= j < |s| && s[j] == InsertByConfidence(x, s)[i]
  {
    var t := InsertByConfidence(x, s);
    InsertIsPermutation(x, s);
    assert t[i] in multiset(t);
    if t[i] != x {
      assert t[i] in multiset(s);
    }
  }

  lemma {:induction false} InsertKeepsOrder(x: ClassPrediction, s: seq<ClassPrediction>)
    requires SortedByConfidence(s)
    ensures SortedByConfidence(InsertByConfidence(x, s))
  {
    if |s| > 0 && s[0].confidence > x.confidence {
      var rest := s[1..];
      InsertKeepsOrder(x, rest);
      var u := InsertByConfidence(x, rest);
      forall i | 0 <= i < |u| ensures u[i].confidence <= s[0].confidence {
        InsertedFrom(x, rest, i);
        if u[i] != x {
          var j :| 0 <= j < |rest| && rest[j] == u[i];
          assert s[j + 1] == rest[j];
        }
      }
      var t := InsertByConfidence(x, s);
      assert t == [s[0]] + u;
      forall i, j | 0 <= i < j < |t| ensures t[i].confidence >= t[j].confidence {
        assert t[j] == u[j - 1];
        if i > 0 {
          assert t[i] == u[i - 1];
        }
      }
    } else {
      var t := InsertByConfidence(x, s);
      forall i, j | 0 <= i < j < |t| ensures t[i].confidence >= t[j].confidence {
        assert t[j] == s[j - 1];
        if i > 0 {
          assert t[i] == s[i - 1];
        }
      }
    }
  }

  /** The sort returns a permutation of its input, non-increasing in confidence. */
  lemma {:induction false} SortIsOrderedPermutation(s: seq<ClassPrediction>)
    ensures SortedByConfidence(SortByConfidence(s))
    ensures multiset(SortByConfidence(s)) == multiset(s)
    ensures |SortByConfidence(s)| == |s|
  {
    if |s| > 0 {
      var rest := SortByConfidence(s[1..]);
      SortIsOrderedPermutation(s[1..]);
      InsertKeepsOrder(s[0], rest);
      InsertIsPermutation(s[0], rest);
      assert SortByConfidence(s) == InsertByConfidence(s[0], rest);
      assert s == [s[0]] + s[1..];
      assert multiset(s) == multiset(s[1..]) + multiset{s[0]};
    }
  }

  lemma {:induction false} DistinctRest(s: seq<ClassPrediction>)
    requires |s| > 0 && DistinctClasses(s)
    ensures DistinctClasses(s[1..])
    ensures forall j :: 0 <= j < |s[1..]| ==> s[1..][j].className != s[0].className
  {
    var rest := s[1..];
    forall i, j | 0 <= i < j < |rest| ensures rest[i].className != rest[j].className {
      assert rest[i] == s[i + 1] && rest[j] == s[j + 1];
    }
    forall j | 0 <= j < |rest| ensures rest[j].className != s[0].className {
      assert rest[j] == s[j + 1];
    }
  }

  lemma {:induction false} InsertKeepsDistinct(x: ClassPrediction, s: seq<ClassPrediction>)
    requires DistinctClasses(s)
    requires forall j :: 0 <= j < |s| ==> s[j].className != x.className
    ensures DistinctClasses(InsertByConfidence(x, s))
  {
    var t := InsertByConfidence(x, s);
    if |s| == 0 || s[0].confidence <= x.confidence {
      forall i, j | 0 <= i < j < |t| ensures t[i].className != t[j].className {
        assert t[j] == s[j - 1];
        if i > 0 {
          assert t[i] == s[i - 1];
        }
      }
    } else {
      var rest := s[1..];
      DistinctRest(s);
      forall j | 0 <= j < |rest| ensures rest[j].className != x.className {
        assert rest[j] == s[j + 1];
      }
      InsertKeepsDistinct(x, rest);
      var u := InsertByConfidence(x, rest);
      forall i | 0 <= i < |u| ensures u[i].className != s[0].className {
        InsertedFrom(x, rest, i);
      }
      assert t == [s[0]] + u;
      forall i, j | 0 <= i < j < |t| ensures t[i].className != t[j].className {
        assert t[j] == u[j - 1];
        if i > 0 {
          assert t[i] == u[i - 1];
        }
      }
    }
  }

  /** Sorting keeps the entries' classes pairwise distinct. */
  lemma {:induction false} SortKeepsDistinct(s: seq<ClassPrediction>)
    requires DistinctClasses(s)
    ensures DistinctClasses(SortByConfidence(s))
  {
    if |s| > 0 {
      var rest := s[1..];
      DistinctRest(s);
      SortKeepsDistinct(rest);
      SortIsOrderedPermutation(rest);
      var sr := SortByConfidence(rest);
      forall j | 0 <= j < |sr| ensures sr[j].className != s[0].className {
        assert sr[j] in multiset(sr);
        assert sr[j] in multiset(rest);
      }
      InsertKeepsDistinct(s[0], sr);
    }
  }

  // ===========================================================================
  // The fused prediction
  // ===========================================================================

  /** One entry per discovered class, in discovery order, carrying the fused
      score and the registry's description. */
  function FusedEntries(ips: seq<ImagePrediction>, m: FusionMethod): (entries: seq<ClassPrediction>) {
    var order := DiscoveryOrder(Samples(ips));
    seq(|order|, k requires 0 <= k < |order| =>
      ClassPrediction(order[k], FusedScore(m, ips, order[k]), GetClassInfo(order[k]).description))
  }

  /** What `fusePredictions` returns: nothing for no images, otherwise the
      five most confident fused entries. */
  function FusedPredictions(ips: seq<ImagePrediction>, m: FusionMethod): (r: seq<ClassPrediction>) {
    if |ips| == 0 then [] else Take(SortByConfidence(FusedEntries(ips, m)), 5)
  }

  /** The collecting dictionaries agree with the collection functions. */
  ghost predicate ScoreTable(order: seq<LesionClass>, classScores: map<LesionClass, seq<real>>,
                             classWeights: map<LesionClass, seq<real>>, ss: seq<Sample>)
  {
    && order == DiscoveryOrder(ss)
    && (forall c :: c in classScores <==> c in order)
    && (forall c :: c in classWeights <==> c in order)
    && (forall c :: c in classScores ==> classScores[c] == ScoresOf(ss, c))
    && (forall c :: c in classWeights ==> classWeights[c] == WeightsOf(ss, c))
  }

  /** One push keeps the dictionaries in step with the collection functions.
      The primed dictionaries come from the unprimed ones in the code's two
      steps: create an empty entry for a new key (the `mid` state), then append. */
  lemma {:induction false} TableStep(order: seq<LesionClass>, classScores: map<LesionClass, seq<real>>,
                  classWeights: map<LesionClass, seq<real>>, ss: seq<Sample>, s: Sample,
                  scoresMid: map<LesionClass, seq<real>>, weightsMid: map<LesionClass, seq<real>>,
                  order': seq<LesionClass>, classScores': map<LesionClass, seq<real>>,
                  classWeights': map<LesionClass, seq<real>>, ss': seq<Sample>)
    requires ScoreTable(order, classScores, classWeights, ss)
    requires order' == if s.className in classScores then order else order + [s.className]
    requires scoresMid == if s.className in classScores then classScores else classScores[s.className := []]
    requires weightsMid == if s.className in classScores then classWeights else classWeights[s.className := []]
    requires classScores' == scoresMid[s.className := scoresMid[s.className] + [s.confidence]]
    requires classWeights' == weightsMid[s.className := weightsMid[s.className] + [s.weight]]
    requires ss' == ss + [s]
    ensures ScoreTable(order', classScores', classWeights', ss')
  {
    var c := s.className;
    AppendSample(ss, s, c);
    DiscoveredIffScored(ss, c);
    SameLength(ss, c);
    forall c' | c' in classScores' ensures classScores'[c'] == ScoresOf(ss + [s], c') {
      AppendSample(ss, s, c');
    }
    forall c' | c' in classWeights' ensures classWeights'[c'] == WeightsOf(ss + [s], c') {
      AppendSample(ss, s, c');
    }
  }

  /** The body of the inner `forEach`: create the key's lists on first
      sight, then push the confidence and the image's quality score. */
  method Push(classPred: ClassPrediction, qcScore: real, ghost ss: seq<Sample>,
              order0: seq<LesionClass>, scores0: map<LesionClass, seq<real>>,
              weights0: map<LesionClass, seq<real>>)
    returns (order: seq<LesionClass>, classScores: map<LesionClass, seq<real>>,
             classWeights: map<LesionClass, seq<real>>)
    requires ScoreTable(order0, scores0, weights0, ss)
    ensures ScoreTable(order, classScores, classWeights,
                       ss + [Sample(classPred.className, classPred.confidence, qcScore)])
  {
    order, classScores, classWeights := order0, scores0, weights0;
    if classPred.className !in classScores {
      classScores := classScores[classPred.className := []];
      classWeights := classWeights[classPred.className := []];
      order := order + [classPred.className];
    }
    ghost var scoresMid, weightsMid := classScores, classWeights;
    classScores := classScores[classPred.className := classScores[classPred.className] + [classPred.confidence]];
    classWeights := classWeights[classPred.className := classWeights[classPred.className] + [qcScore]];
    ghost var s := Sample(classPred.className, classPred.confidence, qcScore);
    TableStep(order0, scores0, weights0, ss, s, scoresMid, weightsMid, order, classScores, classWeights, ss + [s]);
  }

  /** The inner `forEach` over one image's class predictions. */
  method CollectImage(preds: seq<ClassPrediction>, qcScore: real, ghost before: seq<Sample>,
                      order0: seq<LesionClass>, scores0: map<LesionClass, seq<real>>,
                      weights0: map<LesionClass, seq<real>>)
    returns (order: seq<LesionClass>, classScores: map<LesionClass, seq<real>>,
             classWeights: map<LesionClass, seq<real>>, ghost ss: seq<Sample>)
    requires ScoreTable(order0, scores0, weights0, before)
    ensures ss == before + PredSamples(preds, qcScore)
    ensures ScoreTable(order, classScores, classWeights, ss)
  {
    order, classScores, classWeights := order0, scores0, weights0;
    assert before + PredSamples(preds[..0], qcScore) == before by {
      assert preds[..0] == [];
    }
    ss := before;
    var j := 0;
    while j < |preds|
      invariant 0 <= j <= |preds|
      invariant ss == before + PredSamples(preds[..j], qcScore)
      invariant ScoreTable(order, classScores, classWeights, ss)
    {
      order, classScores, classWeights := Push(preds[j], qcScore, ss, order, classScores, classWeights);
      ghost var x := Sample(preds[j].className, preds[j].confidence, qcScore);
      PredSamplesSnoc(preds, j, qcScore);
      assert before + PredSamples(preds[..j + 1], qcScore) == ss + [x];
      ss := ss + [x];
      j := j + 1;
    }
    assert preds[..j] == preds;
  }

  /** The two nested `forEach` loops: push every class confidence and the
      image's quality score under the class's key. */
  method CollectScores(ips: seq<ImagePrediction>)
    returns (order: seq<LesionClass>, classScores: map<LesionClass, seq<real>>,
             classWeights: map<LesionClass, seq<real>>)
    ensures order == DiscoveryOrder(Samples(ips))
    ensures forall c :: c in classScores <==> Observed(ips, c)
    ensures forall c :: c in classWeights <==> Observed(ips, c)
    ensures forall c :: c in classScores ==> classScores[c] == ScoresOf(Samples(ips), c)
    ensures forall c :: c in classWeights ==> classWeights[c] == WeightsOf(Samples(ips), c)
  {
    order, classScores, classWeights := [], map[], map[];
    var i := 0;
    while i < |ips|
      invariant 0 <= i <= |ips|
      invariant ScoreTable(order, classScores, classWeights, Samples(ips[..i]))
    {
      ghost var ss;
      order, classScores, classWeights, ss :=
        CollectImage(ips[i].prediction.predictions, ips[i].qcScore, Samples(ips[..i]),
                     order, classScores, classWeights);
      SamplesSnoc(ips, i);
      i := i + 1;
    }
    assert ips[..i] == ips;
    forall c ensures c in classScores <==> Observed(ips, c) {
      DiscoveredIffObserved(ips, c);
    }
  }

  /** The `forEach` over the collected keys: each class's fused score under
      the chosen rule. */
  method FuseScores(ips: seq<ImagePrediction>, fusionMethod: FusionMethod, order: seq<LesionClass>,
                    classScores: map<LesionClass, seq<real>>, classWeights: map<LesionClass, seq<real>>)
    returns (fusedScores: map<LesionClass, real>)
    requires order == DiscoveryOrder(Samples(ips))
    requires forall c :: c in classScores ==> classScores[c] == ScoresOf(Samples(ips), c)
    requires forall c :: c in classWeights ==> classWeights[c] == WeightsOf(Samples(ips), c)
    requires forall c :: c in order ==> c in classScores && c in classWeights
    ensures forall c :: c in fusedScores <==> c in order
    ensures forall c :: c in fusedScores ==> fusedScores[c] == FusedScore(fusionMethod, ips, c)
  {
    fusedScores := map[];
    var k := 0;
    while k < |order|
      invariant 0 <= k <= |order|
      invariant forall c :: c in fusedScores <==> c in order[..k]
      invariant forall c :: c in fusedScores ==> fusedScores[c] == FusedScore(fusionMethod, ips, c)
    {
      var className := order[k];
      var scores, weights := classScores[className], classWeights[className];
      SameLength(Samples(ips), className);
      fusedScores := fusedScores[className := Combine(fusionMethod, scores, weights, Votes(ips, className), |ips|)];
      assert order[..k + 1] == order[..k] + [className];
      k := k + 1;
    }
    assert order[..k] == order;
  }

  /** `fusePredictions`: collect, fuse each class by the chosen rule in key
      order, then sort by confidence and keep the first five. */
  method FusePredictions(ips: seq<ImagePrediction>, fusionMethod: FusionMethod)
    returns (fused: seq<ClassPrediction>)
    ensures fused == FusedPredictions(ips, fusionMethod)
  {
    if |ips| == 0 {
      return [];
    }
    var order, classScores, classWeights := CollectScores(ips);
    forall c | c in order ensures c in classScores && c in classWeights {
      DiscoveredIffObserved(ips, c);
    }
    var fusedScores := FuseScores(ips, fusionMethod, order, classScores, classWeights);
    var entries := seq(|order|, i requires 0 <= i < |order| =>
      ClassPrediction(order[i], fusedScores[order[i]], GetClassInfo(order[i]).description));
    assert entries == FusedEntries(ips, fusionMethod);
    fused := Take(SortByConfidence(entries), 5);
  }

  // ===========================================================================
  // Properties of the fused prediction
  // ===========================================================================

  lemma {:induction false} FusedEntriesFacts(ips: seq<ImagePrediction>, m: FusionMethod)
    ensures DistinctClasses(FusedEntries(ips, m))
    ensures |FusedEntries(ips, m)| == |DiscoveryOrder(Samples(ips))|
    ensures forall k :: 0 <= k < |FusedEntries(ips, m)| ==> EntryFacts(ips, m, FusedEntries(ips, m)[k])
  {
    var order := DiscoveryOrder(Samples(ips));
    DiscoveryOrderDistinct(Samples(ips));
    forall k | 0 <= k < |order| ensures Observed(ips, order[k]) {
      DiscoveredIffObserved(ips, order[k]);
    }
  }

  /** What every fused entry satisfies: its class was listed by some image,
      its confidence is the class's fused score and its description is the
      registry's. */
  ghost predicate EntryFacts(ips: seq<ImagePrediction>, m: FusionMethod, x: ClassPrediction) {
    && Observed(ips, x.className)
    && x.confidence == FusedScore(m, ips, x.className)
    && x.description == GetClassInfo(x.className).description
  }

  /** A prefix of a sorted list with distinct classes is sorted, has
      distinct classes, and is as long as the list allows. */
  lemma {:induction false} TakeKeepsShape(s: seq<ClassPrediction>, n: nat)
    requires SortedByConfidence(s) && DistinctClasses(s)
    ensures |Take(s, n)| == if |s| < n then |s| else n
    ensures SortedByConfidence(Take(s, n)) && DistinctClasses(Take(s, n))
  {
    var r := Take(s, n);
    assert forall k :: 0 <= k < |r| ==> r[k] == s[k];
  }

  /** Every entry of a prefix of a permutation of `e` is an entry of `e`. */
  lemma {:induction false} TakeKeepsMembers(s: seq<ClassPrediction>, e: seq<ClassPrediction>, n: nat)
    requires multiset(s) == multiset(e)
    ensures forall k :: 0 <= k < |Take(s, n)| ==> Take(s, n)[k] in e
  {
    forall k | 0 <= k < |Take(s, n)| ensures Take(s, n)[k] in e {
      assert Take(s, n)[k] == s[k];
      assert s[k] in multiset(s);
    }
  }

  /** At most five entries, non-increasing in confidence, no class twice; and
      exactly min(5, number of observed classes) entries when there are images. */
  lemma {:induction false} FusedPredictionsShape(ips: seq<ImagePrediction>, m: FusionMethod)
    ensures var r := FusedPredictions(ips, m);
      && |r| <= 5
      && SortedByConfidence(r)
      && DistinctClasses(r)
      && (|ips| > 0 ==> |r| == if |DiscoveryOrder(Samples(ips))| < 5 then |DiscoveryOrder(Samples(ips))| else 5)
  {
    if |ips| > 0 {
      var e := FusedEntries(ips, m);
      var sorted := SortByConfidence(e);
      var r := FusedPredictions(ips, m);
      assert r == Take(sorted, 5);
      FusedEntriesFacts(ips, m);
      SortIsOrderedPermutation(e);
      SortKeepsDistinct(e);
      TakeKeepsShape(sorted, 5);
    }
  }

  /** Every entry is an observed class carrying its fused score and the
      registry's description. */
  lemma {:induction false} FusedPredictionsEntries(ips: seq<ImagePrediction>, m: FusionMethod)
    ensures forall k :: 0 <= k < |FusedPredictions(ips, m)| ==> EntryFacts(ips, m, FusedPredictions(ips, m)[k])
  {
    if |ips| > 0 {
      var e := FusedEntries(ips, m);
      var sorted := SortByConfidence(e);
      var r := FusedPredictions(ips, m);
      assert r == Take(sorted, 5);
      FusedEntriesFacts(ips, m);
      SortIsOrderedPermutation(e);
      TakeKeepsMembers(sorted, e, 5);
      forall k | 0 <= k < |r| ensures EntryFacts(ips, m, r[k]) {
        var i :| 0 <= i < |e| && e[i] == r[k];
      }
    }
  }

  /** Keeping a prefix of a sorted list leaves out only entries no more
      confident than every entry kept. */
  lemma {:induction false} TakeKeepsTop(sorted: seq<ClassPrediction>, n: nat, x: ClassPrediction)
    requires SortedByConfidence(sorted)
    requires x in sorted
    requires forall k :: 0 <= k < |Take(sorted, n)| ==> Take(sorted, n)[k].className != x.className
    ensures forall k :: 0 <= k < |Take(sorted, n)| ==> x.confidence <= Take(sorted, n)[k].confidence
  {
    var r := Take(sorted, n);
    var j :| 0 <= j < |sorted| && sorted[j] == x;
    forall k | 0 <= k < |r| ensures sorted[k] == r[k] && sorted[k].className != x.className {
    }
    assert j >= |r|;
  }

  /** The result is the top of the ranking: any observed class left out is
      no more confident than every class kept. */
  lemma {:induction false} FusedPredictionsAreTop(ips: seq<ImagePrediction>, m: FusionMethod, c: LesionClass)
    requires Observed(ips, c)
    requires forall k :: 0 <= k < |FusedPredictions(ips, m)| ==> FusedPredictions(ips, m)[k].className != c
    ensures forall k :: 0 <= k < |FusedPredictions(ips, m)| ==>
      FusedScore(m, ips, c) <= FusedPredictions(ips, m)[k].confidence
  {
    assert |ips| > 0;
    var e := FusedEntries(ips, m);
    var sorted := SortByConfidence(e);
    var order := DiscoveryOrder(Samples(ips));
    DiscoveredIffObserved(ips, c);
    SortIsOrderedPermutation(e);
    var i :| 0 <= i < |order| && order[i] == c;
    assert e[i].className == c && e[i].confidence == FusedScore(m, ips, c);
    assert e[i] in multiset(sorted);
    assert e[i] in sorted;
    assert FusedPredictions(ips, m) == Take(sorted, 5);
    TakeKeepsTop(sorted, 5, e[i]);
  }

  /** No eligible image means an empty result, whatever the rule. */
  lemma {:induction false} NoEligibleImagesFuseToNothing(images: seq<CaseImage>, m: FusionMethod)
    requires forall j :: 0 <= j < |images| ==> !Eligible(images[j])
    ensures FusedPredictions(ImagePredictions(images), m) == []
  {
    var ips := ImagePredictions(images);
    ImagePredictionsEmpty(images);
    assert ips == [];
  }

  /** The entries pushed for the two-image example below. */
  lemma ExampleSamples(a: Prediction, b: Prediction)
    requires a.predictions == [ClassPrediction(MEL, 0.9, "")]
    requires b.predictions == [ClassPrediction(MEL, 0.5, ""), ClassPrediction(NV, 0.3, "")]
    ensures Samples([ImagePrediction(a, 1.0), ImagePrediction(b, 0.5)]) ==
      [Sample(MEL, 0.9, 1.0), Sample(MEL, 0.5, 0.5), Sample(NV, 0.3, 0.5)]
  {
    var ips := [ImagePrediction(a, 1.0), ImagePrediction(b, 0.5)];
    assert PredSamples(a.predictions[..0], 1.0) == [] by {
      assert a.predictions[..0] == [];
    }
    assert PredSamples(b.predictions[..1][..0], 0.5) == [] by {
      assert b.predictions[..1][..0] == [];
    }
    assert PredSamples(b.predictions[..1], 0.5) == [Sample(MEL, 0.5, 0.5)];
    assert Samples(ips[..1][..0]) == [] by {
      assert ips[..1][..0] == [];
    }
    assert Samples(ips[..1]) == [Sample(MEL, 0.9, 1.0)];
  }

  /** The lists collected for the two-image example below. */
  lemma {:induction false} ExampleCollected(ss: seq<Sample>)
    requires ss == [Sample(MEL, 0.9, 1.0), Sample(MEL, 0.5, 0.5), Sample(NV, 0.3, 0.5)]
    ensures ScoresOf(ss, MEL) == [0.9, 0.5] && WeightsOf(ss, MEL) == [1.0, 0.5]
    ensures ScoresOf(ss, NV) == [0.3] && WeightsOf(ss, NV) == [0.5]
  {
    var s1, s2 := ss[..1], ss[..2];
    assert s2[..1] == s1 && s1[..0] == [];
    assert ScoresOf(s1[..0], MEL) == [] && WeightsOf(s1[..0], MEL) == [];
    assert ScoresOf(s1[..0], NV) == [] && WeightsOf(s1[..0], NV) == [];
    assert ScoresOf(s1, MEL) == [0.9] && WeightsOf(s1, MEL) == [1.0];
    assert ScoresOf(s1, NV) == [] && WeightsOf(s1, NV) == [];
    assert ScoresOf(s2, MEL) == [0.9, 0.5] && WeightsOf(s2, MEL) == [1.0, 0.5];
    assert ScoresOf(s2, NV) == [] && WeightsOf(s2, NV) == [];
    assert ss[..2] == s2;
  }

  /** Two images: A lists MEL 0.9 with quality 1.0, B lists MEL 0.5 and
      NV 0.3 with quality 0.5. Only listed entries are aggregated, so NV
      fuses (weighted) to 0.3. */
  lemma WeightedExample(a: Prediction, b: Prediction)
    requires a.predictions == [ClassPrediction(MEL, 0.9, "")]
    requires b.predictions == [ClassPrediction(MEL, 0.5, ""), ClassPrediction(NV, 0.3, "")]
    ensures FusedScore(Weighted, [ImagePrediction(a, 1.0), ImagePrediction(b, 0.5)], MEL) == 1.15 / 1.5
    ensures FusedScore(Weighted, [ImagePrediction(a, 1.0), ImagePrediction(b, 0.5)], NV) == 0.3
  {
    ExampleSamples(a, b);
    ExampleCollected(Samples([ImagePrediction(a, 1.0), ImagePrediction(b, 0.5)]));
    assert WeightedSum([0.9, 0.5], [1.0, 0.5]) == 1.15 by {
      assert [0.9, 0.5][..1] == [0.9] && [1.0, 0.5][..1] == [1.0];
      assert [0.9][..0] == [] && [1.0][..0] == [];
    }
    assert Sum([1.0, 0.5]) == 1.5 by {
      assert [1.0, 0.5][..1] == [1.0] && [1.0][..0] == [];
    }
    assert WeightedSum([0.3], [0.5]) == 0.15 by {
      assert [0.3][..0] == [] && [0.5][..0] == [];
    }
    assert Sum([0.5]) == 0.5 by {
      assert [0.5][..0] == [];
    }
  }
}
