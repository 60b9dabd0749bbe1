/**
 * The pure parts of the audit page's cards: the total switches from issue
 * severity, recommendation priority and effort, and insight type to display
 * tokens, and the capitalised effort label.
 */
module AuditCards {
  import opened Fixtures
  import opened Style

  /** Icon of an issue card: both critical and high are drawn in red. */
  function SeverityIcon(s: Severity): (g: Glyph)
    ensures g.colour == Red <==> s == Severity.Critical || s == Severity.High
    ensures g.icon == AlertCircle <==> s == Severity.High || s == Severity.Low
  {
    match s
    case Critical => Glyph(XCircle, Red)
    case High => Glyph(AlertCircle, Red)
    case Medium => Glyph(AlertTriangle, Yellow)
    case Low => Glyph(AlertCircle, Blue)
  }

  /** Border and background of an issue card: high is set apart from critical by orange. */
  function SeverityCard(s: Severity): (c: Colour)
    ensures c == Red <==> s == Severity.Critical
    ensures c == Orange <==> s == Severity.High
    ensures c == Yellow <==> s == Severity.Medium
    ensures c == Blue <==> s == Severity.Low
  {
    match s
    case Critical => Red
    case High => Orange
    case Medium => Yellow
    case Low => Blue
  }

  /** Every severity has its own card colour and its own icon. */
  lemma SeverityStylesDistinguish(a: Severity, b: Severity)
    ensures SeverityCard(a) == SeverityCard(b) ==> a == b
    ensures SeverityIcon(a) == SeverityIcon(b) ==> a == b
  {
  }

  /** The card and its icon share a colour for every severity except high. */
  lemma SeverityIconMatchesCard(s: Severity)
    ensures SeverityIcon(s).colour == SeverityCard(s) <==> s != Severity.High
  {
  }

  /** Badge colour of a recommendation's priority. */
  function PriorityColour(p: Level): (c: Colour)
    ensures c == Red <==> p == Level.High
    ensures c == Blue <==> p == Level.Low
  {
    match p
    case High => Red
    case Medium => Yellow
    case Low => Blue
  }

  /** Text colour of a recommendation's effort: low effort is green, high effort red. */
  function EffortColour(e: Level): (c: Colour)
    ensures c == Green <==> e == Level.Low
    ensures c == Red <==> e == Level.High
  {
    match e
    case High => Red
    case Medium => Yellow
    case Low => Green
  }

  /** Priority and effort use the same colours except at low (blue against green). */
  lemma PriorityEffortColours(l: Level)
    ensures PriorityColour(l) == EffortColour(l) <==> l != Level.Low
    ensures PriorityColour(l) != PriorityColour(Level.Low) || l == Level.Low
  {
  }

  /** The string value a level has in the fixture. */
  function LevelName(l: Level): string
  {
    match l
    case High => "high"
    case Medium => "medium"
    case Low => "low"
  }

  /** `toUpperCase` on one character, for the ASCII letters the fixture uses. */
  function UpperChar(c: char): (u: char)
    ensures 'a' <= c <= 'z' ==> 'A' <= u <= 'Z' && u as int == c as int - 32
    ensures !('a' <= c <= 'z') ==> u == c
  {
    if 'a' <= c <= 'z' then (c as int - 32) as char else c
  }

  /** `s.charAt(0).toUpperCase() + s.slice(1)`; the empty string stays empty. */
  function Capitalise(s: string): (r: string)
    ensures |r| == |s|
    ensures |s| > 0 ==> r[0] == UpperChar(s[0])
    ensures forall i :: 1 <= i < |s| ==> r[i] == s[i]
  {
    if |s| == 0 then "" else [UpperChar(s[0])] + s[1..]
  }

  /** Capitalising twice is capitalising once. */
  lemma CapitaliseIdempotent(s: string)
    ensures Capitalise(Capitalise(s)) == Capitalise(s)
  {
    if |s| > 0 {
      var r := Capitalise(s);
      assert UpperChar(r[0]) == r[0];
      assert r[1..] == s[1..];
    }
  }

  /** Text shown after "Effort:". */
  function EffortLabel(e: Level): (r: string)
    ensures |r| == |LevelName(e)| && r[1..] == LevelName(e)[1..]
  {
    Capitalise(LevelName(e))
  }

  /** The three effort labels are "High", "Medium" and "Low". */
  lemma EffortLabels()
    ensures EffortLabel(Level.High) == "High"
    ensures EffortLabel(Level.Medium) == "Medium"
    ensures EffortLabel(Level.Low) == "Low"
  {
  }

  /** Border and background of an insight card. */
  function InsightCardColour(t: InsightType): (c: Colour)
    ensures c == Green <==> t == Positive
    ensures c == Red <==> t == Negative
  {
    match t
    case Positive => Green
    case Negative => Red
    case Neutral => Gray
  }

  /** Icon of an insight card. */
  function InsightIcon(t: InsightType): (g: Glyph)
    ensures g.icon == CheckCircle2 <==> t == Positive
    ensures g.icon == XCircle <==> t == Negative
  {
    match t
    case Positive => Glyph(CheckCircle2, Green)
    case Negative => Glyph(XCircle, Red)
    case Neutral => Glyph(TrendingUp, Gray)
  }

  /** An insight's icon is always drawn in its card's colour. */
  lemma InsightIconMatchesCard(t: InsightType)
    ensures InsightIcon(t).colour == InsightCardColour(t)
  {
  }
}
