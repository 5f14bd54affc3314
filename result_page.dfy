/** The result page's three classifiers of a confidence score: the label and
    text colour (`getConfidenceLabel`, `getConfidenceColor`) and the progress
    bar colour, each cut at 80 and 60. */
module ResultPage {
  /** The band a score falls in, ordered Low < Medium < High. */
  datatype Band = Low | Medium | High {
    function Rank(): nat {
      match this
      case Low => 0
      case Medium => 1
      case High => 2
    }
  }

  /** Reference banding: High from 80 on, Medium from 60 up to 80, Low below 60. */
  function BandOf(score: real): (b: Band)
    ensures b == High <==> score >= 80.0
    ensures b == Medium <==> 60.0 <= score < 80.0
    ensures b == Low <==> score < 60.0
  {
    if score >= 80.0 then High else if score >= 60.0 then Medium else Low
  }

  function LabelOf(b: Band): string
  {
    match b
    case High => "High Confidence"
    case Medium => "Medium Confidence"
    case Low => "Low Confidence"
  }

  function TextColorOf(b: Band): string
  {
    match b
    case High => "text-green-600"
    case Medium => "text-yellow-600"
    case Low => "text-red-600"
  }

  function BarColorOf(b: Band): string
  {
    match b
    case High => "bg-green-500"
    case Medium => "bg-yellow-500"
    case Low => "bg-red-500"
  }

  /** `getConfidenceColor`. */
  function ConfidenceColor(score: real): (c: string)
    ensures c == TextColorOf(BandOf(score))
  {
    if score >= 80.0 then "text-green-600"
    else if score >= 60.0 then "text-yellow-600"
    else "text-red-600"
  }

  /** `getConfidenceLabel`. */
  function ConfidenceLabel(score: real): (l: string)
    ensures l == LabelOf(BandOf(score))
  {
    if score >= 80.0 then "High Confidence"
    else if score >= 60.0 then "Medium Confidence"
    else "Low Confidence"
  }

  /** The class of the confidence bar. */
  function BarColor(score: real): (c: string)
    ensures c == BarColorOf(BandOf(score))
  {
    if score >= 80.0 then "bg-green-500"
    else if score >= 60.0 then "bg-yellow-500"
    else "bg-red-500"
  }

  /** The label determines the band, so label, text colour and bar colour always agree: equal labels
      mean equal colours, and each label comes with its own colour pair. */
  lemma ClassifiersAgree(s: real, t: real)
    ensures ConfidenceLabel(s) == ConfidenceLabel(t) <==> ConfidenceColor(s) == ConfidenceColor(t)
    ensures ConfidenceLabel(s) == ConfidenceLabel(t) <==> BarColor(s) == BarColor(t)
    ensures ConfidenceLabel(s) == "High Confidence" <==> ConfidenceColor(s) == "text-green-600" && BarColor(s) == "bg-green-500"
    ensures ConfidenceLabel(s) == "Medium Confidence" <==> ConfidenceColor(s) == "text-yellow-600" && BarColor(s) == "bg-yellow-500"
    ensures ConfidenceLabel(s) == "Low Confidence" <==> ConfidenceColor(s) == "text-red-600" && BarColor(s) == "bg-red-500"
  {
  }

  /** A higher score never lands in a lower band. */
  lemma BandMonotone(s: real, t: real)
    requires s <= t
    ensures BandOf(s).Rank() <= BandOf(t).Rank()
  {
  }
}
