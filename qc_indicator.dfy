/** The QC indicator's display logic: status label and icon, the colour of
    each metric, and the widths of the three metric bars. */
module QCIndicator {
  import opened Types
  import opened Utils
  import opened RealSeq

  datatype MetricType = Brightness | Contrast | Blur

  const RED := "text-red-500"
  const YELLOW := "text-yellow-500"
  const GREEN := "text-green-500"

  /** `getMetricColor`. Its `default` branch is unreachable on the closed
      metric type and is not modelled. */
  function GetMetricColor(value: real, kind: MetricType): string {
    match kind
    case Brightness =>
      if value < 10.0 || value > 245.0 then RED
      else if value < 50.0 || value > 200.0 then YELLOW
      else GREEN
    case Contrast =>
      if value < 0.1 then RED
      else if value < 0.3 then YELLOW
      else GREEN
    case Blur =>
      if value > 100.0 then RED
      else if value < 200.0 then YELLOW
      else GREEN
  }

  function GetStatusLabel(qc: QualityControlResults): string {
    if !qc.isAcceptable then "Poor Quality"
    else if |qc.warnings| > 0 then "Fair Quality"
    else "Good Quality"
  }

  datatype IconKind = XCircle | ExclamationTriangle | CheckCircle
  datatype StatusIcon = StatusIcon(kind: IconKind, className: string)

  function GetStatusIcon(qc: QualityControlResults): StatusIcon {
    if !qc.isAcceptable then StatusIcon(XCircle, "h-5 w-5 text-red-500")
    else if |qc.warnings| > 0 then StatusIcon(ExclamationTriangle, "h-5 w-5 text-yellow-500")
    else StatusIcon(CheckCircle, "h-5 w-5 text-green-500")
  }

  /** The label and the icon use the status helper's three-way partition:
      Poor whatever the warnings when not acceptable, Fair when acceptable
      with warnings, Good otherwise. */
  lemma StatusAgreesWithQCStatus(qc: QualityControlResults)
    ensures GetStatusLabel(qc) == "Poor Quality" <==> GetQCStatusLabel(qc) == "Poor"
    ensures GetStatusLabel(qc) == "Fair Quality" <==> GetQCStatusLabel(qc) == "Fair"
    ensures GetStatusLabel(qc) == "Good Quality" <==> GetQCStatusLabel(qc) == "Good"
    ensures GetStatusIcon(qc).kind == XCircle <==> !qc.isAcceptable
    ensures GetStatusIcon(qc).kind == ExclamationTriangle <==> qc.isAcceptable && |qc.warnings| > 0
    ensures GetStatusIcon(qc).kind == CheckCircle <==> qc.isAcceptable && |qc.warnings| == 0
  {
  }

  // ---------------------------------------------------------------------------
  // The colour expressions written inline in the detailed view
  // ---------------------------------------------------------------------------

  function BrightnessBarColor(v: real): string {
    if v < 10.0 || v > 245.0 then "bg-red-500"
    else if v < 50.0 || v > 200.0 then "bg-yellow-500"
    else "bg-green-500"
  }

  function ContrastTextColor(v: real): string {
    if v < 0.1 then "text-red-500" else if v < 0.3 then "text-yellow-500" else "text-green-500"
  }

  function ContrastBarColor(v: real): string {
    if v < 0.1 then "bg-red-500" else if v < 0.3 then "bg-yellow-500" else "bg-green-500"
  }

  function SharpnessTextColor(v: real): string {
    if v > 100.0 then "text-red-500" else if v < 200.0 then "text-yellow-500" else "text-green-500"
  }

  function SharpnessBarColor(v: real): string {
    if v > 100.0 then "bg-red-500" else if v < 200.0 then "bg-yellow-500" else "bg-green-500"
  }

  /** A bar's background class is the metric's text class with `text` replaced by `bg`. */
  function AsBackground(textClass: string): string
    requires |textClass| >= 4
  {
    "bg" + textClass[4..]
  }

  /** The inline copies agree with `GetMetricColor`, text and bar alike. */
  lemma InlineColorsAgree(v: real)
    ensures ContrastTextColor(v) == GetMetricColor(v, Contrast)
    ensures SharpnessTextColor(v) == GetMetricColor(v, Blur)
    ensures BrightnessBarColor(v) == AsBackground(GetMetricColor(v, Brightness))
    ensures ContrastBarColor(v) == AsBackground(GetMetricColor(v, Contrast))
    ensures SharpnessBarColor(v) == AsBackground(GetMetricColor(v, Blur))
  {
    assert AsBackground(RED) == "bg-red-500" by {
      assert RED[4..] == "-red-500";
    }
    assert AsBackground(YELLOW) == "bg-yellow-500" by {
      assert YELLOW[4..] == "-yellow-500";
    }
    assert AsBackground(GREEN) == "bg-green-500" by {
      assert GREEN[4..] == "-green-500";
    }
  }

  /** Brightness and contrast bands, each as an if-and-only-if. */
  lemma MetricColorBands(v: real)
    ensures GetMetricColor(v, Brightness) == RED <==> v < 10.0 || v > 245.0
    ensures GetMetricColor(v, Brightness) == YELLOW <==>
      10.0 <= v <= 245.0 && (v < 50.0 || v > 200.0)
    ensures GetMetricColor(v, Brightness) == GREEN <==> 50.0 <= v <= 200.0
    ensures GetMetricColor(v, Contrast) == RED <==> v < 0.1
    ensures GetMetricColor(v, Contrast) == YELLOW <==> 0.1 <= v < 0.3
    ensures GetMetricColor(v, Contrast) == GREEN <==> v >= 0.3
    ensures GetMetricColor(v, Blur) == RED <==> v > 100.0
    ensures GetMetricColor(v, Blur) == YELLOW <==> v <= 100.0
  {
  }

  /** The blur colour is never green: a value not above 100 is always below
      200. The same holds for both inline copies. */
  lemma BlurNeverGreen(v: real)
    ensures GetMetricColor(v, Blur) != GREEN
    ensures SharpnessTextColor(v) != "text-green-500"
    ensures SharpnessBarColor(v) != "bg-green-500"
  {
  }

  /** The colours agree with the gate: red exactly when the gate reports the
      metric unacceptable, yellow exactly when it gives that metric's advisory
      (blur has no green, since the gate always advises on an acceptable blur). */
  lemma MetricColorsAgreeWithGate(b: real, c: real, blur: real)
    ensures var w := QualityGate(b, c, blur).warnings;
      && (GetMetricColor(b, Brightness) == RED <==> TOO_DARK in w || TOO_BRIGHT in w)
      && (GetMetricColor(b, Brightness) == YELLOW <==> BRIGHTNESS_ADVISORY in w)
      && (GetMetricColor(c, Contrast) == RED <==> LOW_CONTRAST in w)
      && (GetMetricColor(c, Contrast) == YELLOW <==> CONTRAST_ADVISORY in w)
      && (GetMetricColor(blur, Blur) == RED <==> TOO_BLURRY in w)
      && (GetMetricColor(blur, Blur) == YELLOW <==> SHARPNESS_ADVISORY in w)
  {
    var bw, cw, lw := BrightnessWarnings(b), ContrastWarnings(c), BlurWarnings(blur);
    var w := QualityGate(b, c, blur).warnings;
    assert w == bw + cw + lw;
    forall x | x in w ensures x in bw || x in cw || x in lw {
    }
    forall x | x in bw + cw + lw ensures x in w {
    }
  }

  /** Brightness red is exactly the gate's brightness rejection. */
  lemma BrightnessRedIffGateRejects(b: real)
    ensures GetMetricColor(b, Brightness) == RED <==> !BrightnessAcceptable(b)
  {
  }

  // ---------------------------------------------------------------------------
  // Bar widths (percent)
  // ---------------------------------------------------------------------------

  function BrightnessBarWidth(brightness: real): real { Min2(100.0, (brightness / 255.0) * 100.0) }
  function ContrastBarWidth(contrast: real): real { Min2(100.0, contrast * 100.0) }
  function SharpnessBarWidth(blur: real): real { Min2(100.0, Max2(0.0, (blur / 500.0) * 100.0)) }

  /** The sharpness bar is clamped into [0, 100] and proportional in between;
      the other two bars are capped at 100 only. */
  lemma BarWidthBounds(v: real)
    ensures 0.0 <= SharpnessBarWidth(v) <= 100.0
    ensures 0.0 <= v <= 500.0 ==> SharpnessBarWidth(v) == v / 5.0
    ensures BrightnessBarWidth(v) <= 100.0
    ensures 0.0 <= v <= 255.0 ==> 0.0 <= BrightnessBarWidth(v) == v * 100.0 / 255.0
    ensures ContrastBarWidth(v) <= 100.0
    ensures v <= 1.0 ==> ContrastBarWidth(v) == v * 100.0
  {
  }

  /** The brightness and contrast bars have no lower clamp: a negative
      metric gives a negative width. */
  lemma NegativeWidths()
    ensures BrightnessBarWidth(-25.5) < 0.0
    ensures ContrastBarWidth(-0.5) < 0.0
  {
  }
}
