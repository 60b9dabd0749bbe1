/**
 * Abstract display tokens. A colour stands for the family of utility classes
 * a component picks (`text-red-600`, `bg-red-50 border-red-200`, ...); an
 * icon for the icon component it renders.
 */
module Style {
  import opened ScoreTier

  datatype Colour = Red | Orange | Yellow | Green | Blue | Gray | Primary
  datatype Icon = XCircle | AlertCircle | AlertTriangle | CheckCircle2 | TrendingUp | TrendingDown | Minus
  /** An icon drawn in a colour. */
  datatype Glyph = Glyph(icon: Icon, colour: Colour)

  /** Green for a good score, yellow for a fair one, red for a poor one. */
  function TierColour(t: Tier): (c: Colour)
    ensures c == Green <==> t == Good
    ensures c == Yellow <==> t == Fair
    ensures c == Red <==> t == Poor
  {
    match t
    case Good => Green
    case Fair => Yellow
    case Poor => Red
  }

  /** Distinct tiers are shown in distinct colours. */
  lemma TierColourInjective(t: Tier, u: Tier)
    ensures TierColour(t) == TierColour(u) ==> t == u
  {
  }
}
