/**
 * The three risk labels of the calculator, their severity order, their CSS class and the
 * two-cutoff categorizer that maps a probability to a label (app.py, lines 61-68).
 */
module Categories {

  /** The label texts the application shows; they are also the keys of its rank and colour tables. */
  const LowText: string := "Низкий"
  const IntermediateText: string := "Промежуточный"
  const HighText: string := "Высокий"

  /**
   * A risk label. The categorizer only ever produces the first three; Other stands for any other
   * string that reaches the combiner or the colour table, so that their defaults can be stated.
   */
  datatype Category = Low | Intermediate | High | Other(text: string) {

    /** The string the application uses for this label. */
    function Text(): (t: string) {
      match this
      case Low => LowText
      case Intermediate => IntermediateText
      case High => HighText
      case Other(t) => t
    }

    /** One of the three labels the categorizer produces. */
    predicate Known() {
      Low? || Intermediate? || High?
    }
  }

  /** An Other whose text is one of the three label texts would duplicate a named label. */
  predicate Canonical(c: Category) {
    c.Other? ==> c.text != LowText && c.text != IntermediateText && c.text != HighText
  }

  /** The label a Python string denotes. */
  function FromText(t: string): (c: Category)
    ensures c.Text() == t
    ensures Canonical(c)
    ensures c.Known() <==> t == LowText || t == IntermediateText || t == HighText
  {
    if t == LowText then Low
    else if t == IntermediateText then Intermediate
    else if t == HighText then High
    else Other(t)
  }

  /** Reading back the text of a canonical label gives the label again. */
  lemma FromTextOfText(c: Category)
    requires Canonical(c)
    ensures FromText(c.Text()) == c
  {
  }

  /** The combiner's severity table, with rank 0 for any text it does not list. */
  function RankOfText(t: string): (r: nat)
    ensures r <= 2
    ensures r == 1 <==> t == IntermediateText
    ensures r == 2 <==> t == HighText
  {
    if t == LowText then 0
    else if t == IntermediateText then 1
    else if t == HighText then 2
    else 0
  }

  /** The severity of a label: Low 0, Intermediate 1, High 2, anything else 0. */
  function Rank(c: Category): (r: nat)
    ensures r <= 2
    ensures c.Known() ==> r == (if c.Low? then 0 else if c.Intermediate? then 1 else 2)
    ensures Canonical(c) && c.Other? ==> r == 0
  {
    RankOfText(c.Text())
  }

  /** Rank tells the three known labels apart. */
  lemma KnownRankInjective(a: Category, b: Category)
    requires a.Known() && b.Known()
    ensures Rank(a) == Rank(b) <==> a == b
  {
  }

  /**
   * The CSS class of a label: risk-low, risk-mid and risk-high for the three labels, and
   * risk-mid for any other string, which the lookup falls back to.
   */
  function ColorClass(c: Category): (css: string)
    ensures css == "risk-low" <==> c.Text() == LowText
    ensures css == "risk-high" <==> c.Text() == HighText
    ensures css == "risk-mid" <==> c.Text() != LowText && c.Text() != HighText
  {
    var t := c.Text();
    if t == LowText then "risk-low"
    else if t == IntermediateText then "risk-mid"
    else if t == HighText then "risk-high"
    else "risk-mid"
  }

  /** The class of each named label, and the default for every other one. */
  lemma ColorClassOfLabels(other: string)
    requires other != LowText && other != IntermediateText && other != HighText
    ensures ColorClass(Low) == "risk-low"
    ensures ColorClass(Intermediate) == "risk-mid"
    ensures ColorClass(High) == "risk-high"
    ensures ColorClass(Other(other)) == "risk-mid"
  {
  }

  /** The cutoff pairs passed to the categorizer by the three tabs. */
  const ClinicalLow: real := 0.388
  const ClinicalHigh: real := 0.607
  const LipidLow: real := 0.35
  const LipidHigh: real := 0.689
  const MetaLow: real := 0.05
  const MetaHigh: real := 0.1

  /**
   * `extended_category(p, low, high)`: below `low` is Low, below `high` is Intermediate,
   * otherwise High. Comparisons are strict, so a boundary value goes to the upper band.
   */
  function Categorize(p: real, low: real, high: real): (c: Category)
    ensures c.Known()
    ensures c == Low <==> p < low
    ensures c == Intermediate <==> low <= p < high
    ensures c == High <==> low <= p && high <= p
  {
    if p < low then Low
    else if p < high then Intermediate
    else High
  }

  /** With ordered cutoffs the three bands are [.., low), [low, high) and [high, ..). */
  lemma CategorizeBands(p: real, low: real, high: real)
    requires low <= high
    ensures Categorize(p, low, high) == High <==> high <= p
    ensures Categorize(p, low, low) != Intermediate
  {
  }

  /** Each cutoff belongs to the band above it. */
  lemma CategorizeBoundaries(low: real, high: real)
    requires low < high
    ensures Categorize(low, low, high) == Intermediate
    ensures Categorize(high, low, high) == High
  {
  }

  /** For ordered cutoffs a larger probability never gets a less severe label. */
  lemma CategorizeMonotone(p: real, q: real, low: real, high: real)
    requires low <= high
    requires p <= q
    ensures Rank(Categorize(p, low, high)) <= Rank(Categorize(q, low, high))
  {
  }

  /** The result of one model: its probability and the label it was given. */
  datatype RiskResult = RiskResult(probability: real, category: Category)
}
