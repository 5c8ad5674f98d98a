/**
 * SkillsSection.tsx: each skill card shows a coloured dot and a proficiency label, both
 * chosen from the skill's percentage by the same three thresholds, 90, 80 and 70.
 */
module Skills {
  /** The proficiency levels, weakest first. */
  datatype Proficiency = Beginner | Intermediate | Advanced | Expert

  function Rank(p: Proficiency): (r: nat)
    ensures r < 4
  {
    match p
    case Beginner => 0
    case Intermediate => 1
    case Advanced => 2
    case Expert => 3
  }

  /** How many of the thresholds 70, 80 and 90 the level reaches. */
  function ThresholdsMet(level: real): (n: nat)
    ensures n <= 3
  {
    (if level >= 70.0 then 1 else 0) + (if level >= 80.0 then 1 else 0) + (if level >= 90.0 then 1 else 0)
  }

  /** The proficiency of a level, as the number of thresholds it reaches. */
  function ProficiencyOf(level: real): (p: Proficiency)
    ensures Rank(p) == ThresholdsMet(level)
  {
    [Beginner, Intermediate, Advanced, Expert][ThresholdsMet(level)]
  }

  function Name(p: Proficiency): (s: string)
  {
    match p
    case Beginner => "Beginner"
    case Intermediate => "Intermediate"
    case Advanced => "Advanced"
    case Expert => "Expert"
  }

  function Colour(p: Proficiency): (s: string)
  {
    match p
    case Beginner => "bg-red-400"
    case Intermediate => "bg-orange-400"
    case Advanced => "bg-yellow-400"
    case Expert => "bg-green-400"
  }

  /** The label's conditional chain, as the card writes it. */
  function LevelLabel(level: real): (text: string)
    ensures text == Name(ProficiencyOf(level))
  {
    if level >= 90.0 then "Expert"
    else if level >= 80.0 then "Advanced"
    else if level >= 70.0 then "Intermediate"
    else "Beginner"
  }

  /** The dot's conditional chain, as the card writes it. */
  function DotColour(level: real): (colour: string)
    ensures colour == Colour(ProficiencyOf(level))
  {
    if level >= 90.0 then "bg-green-400"
    else if level >= 80.0 then "bg-yellow-400"
    else if level >= 70.0 then "bg-orange-400"
    else "bg-red-400"
  }

  /** Different proficiencies have different names and different colours. */
  lemma NamesAndColoursDistinct(p: Proficiency, q: Proficiency)
    ensures Name(p) == Name(q) <==> p == q
    ensures Colour(p) == Colour(q) <==> p == q
  {
  }

  /** The dot and the label agree: two skills share a label exactly when they share a
      dot colour. */
  lemma LabelAndColourAgree(a: real, b: real)
    ensures LevelLabel(a) == LevelLabel(b) <==> DotColour(a) == DotColour(b)
  {
    NamesAndColoursDistinct(ProficiencyOf(a), ProficiencyOf(b));
  }

  /** A higher percentage never gets a lower proficiency. */
  lemma ProficiencyMonotone(a: real, b: real)
    requires a <= b
    ensures Rank(ProficiencyOf(a)) <= Rank(ProficiencyOf(b))
  {
  }
}
