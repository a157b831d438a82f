/**
 * The two enumerations both screens share, with the string literals that
 * name them in the stored settings (`'easy' | 'medium' | 'hard'` and
 * `'day' | 'night' | 'rain'`).
 */
module Config {
  import opened Wrappers

  datatype Difficulty = Easy | Medium | Hard
  datatype ViewMode = Day | Night | Rain

  function DifficultyName(d: Difficulty): string
  {
    match d
    case Easy => "easy"
    case Medium => "medium"
    case Hard => "hard"
  }

  function ViewModeName(v: ViewMode): string
  {
    match v
    case Day => "day"
    case Night => "night"
    case Rain => "rain"
  }

  /** `['easy', 'medium', 'hard'].includes(t)`, answering which one. */
  function ParseDifficulty(t: string): (r: Option<Difficulty>)
    ensures r.Some? <==> t in ["easy", "medium", "hard"]
    ensures r.Some? ==> DifficultyName(r.value) == t
  {
    if t == "easy" then Some(Easy)
    else if t == "medium" then Some(Medium)
    else if t == "hard" then Some(Hard)
    else None
  }

  /** `['day', 'night', 'rain'].includes(t)`, answering which one. */
  function ParseViewMode(t: string): (r: Option<ViewMode>)
    ensures r.Some? <==> t in ["day", "night", "rain"]
    ensures r.Some? ==> ViewModeName(r.value) == t
  {
    if t == "day" then Some(Day)
    else if t == "night" then Some(Night)
    else if t == "rain" then Some(Rain)
    else None
  }

  /** Every difficulty reads back from its own name. */
  lemma DifficultyNameRoundTrip(d: Difficulty)
    ensures ParseDifficulty(DifficultyName(d)) == Some(d)
  {
  }

  /** Every view mode reads back from its own name. */
  lemma ViewModeNameRoundTrip(v: ViewMode)
    ensures ParseViewMode(ViewModeName(v)) == Some(v)
  {
  }
}
