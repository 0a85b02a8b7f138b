/**
 * The story form and its result view: the "1 in X" formatter, the combined
 * odds of an event, the probability bar, the one-event-at-a-time expansion,
 * and the text form's analyze handler.
 */
module StoryInput {
  import opened Wrappers
  import opened JsText
  import opened AnalysisModel

  // ---------------------------------------------------------------------------
  // "1 in X"

  datatype Magnitude = Thousand | Million | Billion {

    function Scale(): real {
      match this
      case Thousand => 1_000.0
      case Million => 1_000_000.0
      case Billion => 1_000_000_000.0
    }

    /** The text written after the scaled number. */
    function Suffix(): string {
      match this
      case Thousand => "k"
      case Million => " million"
      case Billion => " billion"
    }
  }

  /**
   * What `formatOneInX` prints after "1 in ": a value scaled to a magnitude
   * (printed with one decimal, then the magnitude's suffix), or a whole number.
   */
  datatype OddsText = Scaled(value: real, magnitude: Magnitude) | Whole(count: int)

  /** `Math.round`: the nearest integer, halves rounded up. */
  function Round(x: real): (n: int)
    ensures n as real - 0.5 <= x < n as real + 0.5
  {
    (x + 0.5).Floor
  }

  /**
   * `formatOneInX`: the largest magnitude whose scale `x` reaches, with `x`
   * divided by that scale; below a thousand, `x` rounded. Values below 1 are
   * not clamped.
   */
  function FormatOneInX(x: real): (r: OddsText)
    ensures r.Scaled? <==> x >= 1_000.0
    ensures r.Scaled? ==> (r.magnitude == Billion <==> x >= 1_000_000_000.0)
    ensures r.Scaled? ==> (r.magnitude == Million <==> 1_000_000.0 <= x < 1_000_000_000.0)
    ensures r.Scaled? ==> r.value * r.magnitude.Scale() == x && 1.0 <= r.value
    ensures r.Scaled? && r.magnitude != Billion ==> r.value < 1_000.0
    ensures r.Whole? ==> r.count as real - 0.5 <= x < r.count as real + 0.5
  {
    if x >= Billion.Scale() then Scaled(x / Billion.Scale(), Billion)
    else if x >= Million.Scale() then Scaled(x / Million.Scale(), Million)
    else if x >= Thousand.Scale() then Scaled(x / Thousand.Scale(), Thousand)
    else Whole(Round(x))
  }

  /** Orders the buckets: whole numbers, then thousands, millions, billions. */
  function Rank(o: OddsText): nat {
    match o
    case Whole(_) => 0
    case Scaled(_, m) => match m case Thousand => 1 case Million => 2 case Billion => 3
  }

  /** Larger odds never print in a smaller bucket, and within a bucket the printed value grows with them. */
  lemma FormatOneInXMonotone(x: real, y: real)
    requires x <= y
    ensures Rank(FormatOneInX(x)) <= Rank(FormatOneInX(y))
    ensures FormatOneInX(x).Scaled? && FormatOneInX(y).Scaled? && FormatOneInX(x).magnitude == FormatOneInX(y).magnitude
      ==> FormatOneInX(x).value <= FormatOneInX(y).value
    ensures FormatOneInX(x).Whole? && FormatOneInX(y).Whole? ==> FormatOneInX(x).count <= FormatOneInX(y).count
  {
  }

  lemma FormatOneInXExamples()
    ensures FormatOneInX(999.0) == Whole(999)
    ensures FormatOneInX(1_500.0) == Scaled(1.5, Thousand)
    ensures FormatOneInX(2_500_000.0) == Scaled(2.5, Million)
    ensures FormatOneInX(3_200_000_000.0) == Scaled(3.2, Billion)
    ensures FormatOneInX(0.4) == Whole(0)
  {
  }

  // ---------------------------------------------------------------------------
  // Combined odds of an event

  /** `conditions.reduce((acc, curr) => acc * curr.oneInX, 1)`: the product of the odds, 1 for none. */
  function CombinedOdds(conditions: seq<Condition>): real {
    if conditions == [] then 1.0
    else CombinedOdds(conditions[..|conditions| - 1]) * conditions[|conditions| - 1].oneInX
  }

  /** When every condition is at least "1 in 1", so is the event. */
  lemma {:induction false} CombinedOddsAtLeastOne(conditions: seq<Condition>)
    requires forall i :: 0 <= i < |conditions| ==> conditions[i].oneInX >= 1.0
    ensures CombinedOdds(conditions) >= 1.0
  {
    if conditions != [] {
      var front := conditions[..|conditions| - 1];
      assert forall j :: 0 <= j < |front| ==> front[j] == conditions[j];
      CombinedOddsAtLeastOne(front);
      ScaleUp(conditions[|conditions| - 1].oneInX, CombinedOdds(front));
    }
  }

  /** The product of a concatenation is the product of the products. */
  lemma {:induction false} CombinedOddsAppend(a: seq<Condition>, b: seq<Condition>)
    ensures CombinedOdds(a + b) == CombinedOdds(a) * CombinedOdds(b)
    decreases |b|
  {
    if b == [] {
      assert a + b == a;
    } else {
      var front := b[..|b| - 1];
      assert (a + b)[..|a + b| - 1] == a + front;
      assert (a + b)[|a + b| - 1] == b[|b| - 1];
      CombinedOddsAppend(a, front);
    }
  }

  /** When every condition is at least "1 in 1", the event is at least as unlikely as each of its conditions. */
  lemma {:induction false} CombinedOddsAtLeastEach(conditions: seq<Condition>, i: nat)
    requires forall j :: 0 <= j < |conditions| ==> conditions[j].oneInX >= 1.0
    requires i < |conditions|
    ensures CombinedOdds(conditions) >= conditions[i].oneInX
  {
    var front, last := conditions[..|conditions| - 1], conditions[|conditions| - 1].oneInX;
    assert forall j :: 0 <= j < |front| ==> front[j] == conditions[j];
    var p := CombinedOdds(front);
    CombinedOddsAtLeastOne(front);
    assert CombinedOdds(conditions) == p * last;
    if i == |conditions| - 1 {
      ScaleUp(p, last);
    } else {
      CombinedOddsAtLeastEach(front, i);
      assert front[i] == conditions[i];
      ScaleUp(last, p);
    }
  }

  /** Multiplying by a factor of at least 1 does not decrease a non-negative value. */
  lemma ScaleUp(f: real, v: real)
    requires f >= 1.0 && v >= 0.0
    ensures f * v >= v && v * f >= v
  {
    assert (f - 1.0) * v >= 0.0;
  }

  /** Every condition of every event, in order. */
  function AllConditions(events: seq<Event>): seq<Condition> {
    if events == [] then [] else AllConditions(events[..|events| - 1]) + events[|events| - 1].conditions
  }

  /** The product of the events' combined odds. */
  function EventsProduct(events: seq<Event>): real {
    if events == [] then 1.0 else EventsProduct(events[..|events| - 1]) * CombinedOdds(events[|events| - 1].conditions)
  }

  /**
   * Multiplying the per-event figures the view shows gives the product over
   * all conditions, the figure `finalOneInX` is meant to be.
   */
  lemma {:induction false} EventsProductIsCombinedOdds(events: seq<Event>)
    ensures EventsProduct(events) == CombinedOdds(AllConditions(events))
  {
    if events != [] {
      var front, last := events[..|events| - 1], events[|events| - 1].conditions;
      EventsProductIsCombinedOdds(front);
      var earlier := AllConditions(front);
      CombinedOddsAppend(earlier, last);
      assert AllConditions(events) == earlier + last;
      assert EventsProduct(events) == EventsProduct(front) * CombinedOdds(last);
    }
  }

  // ---------------------------------------------------------------------------
  // Probability bar

  function RealMin(a: real, b: real): real {
    if a <= b then a else b
  }

  /**
   * The bar's width in percent, `Math.min(100, (1 / oneInX) * 100)`. For
   * `oneInX` = 0 JavaScript divides to Infinity, so the minimum is 100. No
   * lower bound is applied.
   */
  function BarWidth(oneInX: real): (w: real)
    ensures w <= 100.0
    ensures w == 100.0 <==> 0.0 <= oneInX <= 1.0
    ensures oneInX > 0.0 ==> w > 0.0
    ensures oneInX >= 1.0 ==> w * oneInX == 100.0
    ensures oneInX < 0.0 ==> w < 0.0 && w * oneInX == 100.0
  {
    if oneInX == 0.0 then 100.0 else RealMin(100.0, (1.0 / oneInX) * 100.0)
  }

  // ---------------------------------------------------------------------------
  // Expanding an event

  /** The click handler's new selection: none if event `i` was the selected one, otherwise `i`. */
  function Toggled(selected: Option<nat>, i: nat): (r: Option<nat>)
    ensures r == Some(i) <==> selected != Some(i)
    ensures r != Some(i) ==> r == None
  {
    if selected == Some(i) then None else Some(i)
  }

  /** Clicking the same event twice restores whether it is expanded; any other expanded event ends collapsed. */
  lemma ToggledTwice(selected: Option<nat>, i: nat)
    ensures Toggled(Toggled(selected, i), i) == (if selected == Some(i) then Some(i) else None)
  {
  }

  /**
   * The result view: the analysis it shows and which event is expanded. The
   * form keeps one mounted view and passes it each new analysis, so the
   * selection is kept across analyses; nothing ties it to the events shown.
   */
  class AnalysisView {
    var analysis: Analysis
    var selectedEvent: Option<nat>

    constructor (analysis: Analysis)
      ensures this.analysis == analysis && selectedEvent == None
    {
      this.analysis := analysis;
      selectedEvent := None;
    }

    predicate Expanded(i: nat)
      reads this
    {
      selectedEvent == Some(i)
    }

    /** A new analysis reaches the mounted view: it is shown, and the selection stays as it was. */
    method Show(a: Analysis)
      modifies this
      ensures analysis == a && selectedEvent == old(selectedEvent)
    {
      analysis := a;
    }

    /** Clicking event `i` expands it, or collapses it if it was expanded; no other event stays expanded. */
    method Click(i: nat)
      requires i < |analysis.events|
      modifies this
      ensures analysis == old(analysis)
      ensures selectedEvent == Toggled(old(selectedEvent), i)
      ensures Expanded(i) <==> !old(Expanded(i))
      ensures forall j: nat :: j != i ==> !Expanded(j)
    {
      selectedEvent := Toggled(selectedEvent, i);
    }
  }

  /**
   * Expanding the third event of one analysis and then receiving an analysis
   * with a single event leaves an event expanded that the new list does not have.
   */
  method SelectionOutlivesAnalysis(first: Analysis, second: Analysis) returns (v: AnalysisView)
    requires |first.events| >= 3 && |second.events| == 1
    ensures v.analysis == second && v.Expanded(2) && 2 >= |v.analysis.events|
  {
    v := new AnalysisView(first);
    v.Click(2);
    v.Show(second);
  }

  // ---------------------------------------------------------------------------
  // The text form

  const AnalyzeStoryFailed := "Failed to analyze story"

  /** `!story.trim()`. */
  predicate IsBlank(story: string) {
    Trim(story) == ""
  }

  class TextInput {
    var story: string
    var isAnalyzing: bool
    var analysis: Option<Analysis>
    var error: Option<string>

    /** While a request runs, no error is shown. */
    ghost predicate Valid()
      reads this
    {
      isAnalyzing ==> error == None
    }

    constructor ()
      ensures Valid()
      ensures story == "" && !isAnalyzing && analysis == None && error == None
    {
      story := "";
      isAnalyzing := false;
      analysis := None;
      error := None;
    }

    /** Typing in the text area. */
    method Edit(text: string)
      requires Valid()
      modifies this
      ensures Valid()
      ensures story == text && isAnalyzing == old(isAnalyzing)
      ensures analysis == old(analysis) && error == old(error)
    {
      story := text;
    }

    /** The Analyze button is enabled: a story that is not blank, and no request running. */
    predicate CanAnalyze()
      reads this
    {
      !IsBlank(story) && !isAnalyzing
    }

    /**
     * `handleAnalyze` up to the request: a blank story changes nothing and
     * sends nothing; otherwise the spinner shows, the error clears and the
     * story is sent as it is. The button is disabled while a request runs.
     */
    method Analyze() returns (request: Option<string>)
      requires Valid() && !isAnalyzing
      modifies this
      ensures Valid()
      ensures IsBlank(old(story)) ==> request == None && unchanged(this)
      ensures !IsBlank(old(story)) ==>
        && request == Some(old(story))
        && isAnalyzing && error == None
        && story == old(story) && analysis == old(analysis)
      ensures request.Some? <==> old(CanAnalyze())
    {
      if IsBlank(story) {
        return None;
      }
      isAnalyzing := true;
      error := None;
      request := Some(story);
    }

    /**
     * The request ends: on success the analysis is replaced by the answer's,
     * on any failure the error is shown and the analysis kept, and in every
     * case the spinner stops.
     */
    method Receive(outcome: Outcome)
      requires Valid() && isAnalyzing
      modifies this
      ensures Valid() && !isAnalyzing && story == old(story)
      ensures Settlement(analysis, error) == Settle(outcome, old(analysis), AnalyzeStoryFailed)
      ensures outcome.Responded? && !outcome.ok ==> error == Some(AnalyzeStoryFailed) && analysis == old(analysis)
    {
      var s := Settle(outcome, analysis, AnalyzeStoryFailed);
      analysis := s.analysis;
      error := s.error;
      isAnalyzing := false;
    }
  }
}
