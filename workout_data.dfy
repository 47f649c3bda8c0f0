/** The weekly workout plan chosen by activity level. */
module WorkoutData {
  import opened Wrappers
  import opened Text

  /** The five activity levels a plan exists for. */
  datatype Level = Sedentary | Light | Moderate | Active | VeryActive

  /** One workout description per day of the week. */
  datatype Week = Week(
    sunday: string, monday: string, tuesday: string, wednesday: string,
    thursday: string, friday: string, saturday: string)

  const DayNames: seq<string> := ["Sunday", "Monday", "Tuesday", "Wednesday", "Thursday", "Friday", "Saturday"]

  /** The key under which each level's plan is stored. */
  function Key(l: Level): string
  {
    match l
    case Sedentary => "sedentary"
    case Light => "light"
    case Moderate => "moderate"
    case Active => "active"
    case VeryActive => "very_active"
  }

  /** The plan table. */
  function PlanOf(l: Level): Week
  {
    match l
    case Sedentary => Week(
      "Rest & Light Stretching", "20 min brisk walk", "Rest", "20 min brisk walk",
      "Rest", "20 min brisk walk", "30 min light activity (gardening, cleaning, etc.)")
    case Light => Week(
      "Rest & Recovery", "30 min Jog / Power Walk", "20 min Bodyweight Exercises (Squats, Pushups)",
      "30 min Jog / Power Walk", "Active Rest (Yoga/Stretching)", "30 min Jog / Power Walk",
      "45 min Hike or Long Walk")
    case Moderate => Week(
      "Rest", "45 min Cardio (Run/Cycle)", "40 min Strength Training (Upper Body)", "30 min HIIT Cardio",
      "40 min Strength Training (Lower Body)", "45 min Cardio (Run/Cycle)",
      "60 min Active Hobby (Sports, Hiking, Swimming)")
    case Active => Week(
      "Active Recovery (Yoga/Light Swim)", "60 min Cardio", "60 min Strength Training (Push)",
      "60 min Cardio + Core", "60 min Strength Training (Pull)", "60 min HIIT",
      "60 min Strength Training (Legs)")
    case VeryActive => Week(
      "Rest", "AM: Cardio, PM: Strength (Chest/Tri)", "AM: Cardio, PM: Strength (Back/Bi)",
      "AM: Cardio, PM: Strength (Legs/Shoulders)", "60 min High Intensity Activity",
      "Full Body Strength Circuit", "90+ min Endurance Activity")
  }

  /** The level stored under `key`, if any: the dictionary lookup of the plan table. */
  function LevelFor(key: string): (r: Option<Level>)
    ensures r.Some? ==> Key(r.value) == key
  {
    if key == "sedentary" then Some(Sedentary)
    else if key == "light" then Some(Light)
    else if key == "moderate" then Some(Moderate)
    else if key == "active" then Some(Active)
    else if key == "very_active" then Some(VeryActive)
    else None
  }

  /** A missing or empty level reads as "sedentary"; any other is lower-cased. */
  function Normalize(level: Option<string>): string
  {
    if level.Some? && level.value != "" then Lower(level.value) else "sedentary"
  }

  /** The level whose plan is returned: the one stored under the normalised key, moderate when there is none. */
  function Resolve(level: Option<string>): (l: Level)
    ensures l == Moderate || Normalize(level) == Key(l)
  {
    var found := LevelFor(Normalize(level));
    if found.Some? then found.value else Moderate
  }

  /** `get_weekly_workout_plan`: the plan for the normalised level, the moderate plan for an unknown one. */
  function WeeklyWorkoutPlan(level: Option<string>): (r: Week)
    ensures forall l :: Normalize(level) == Key(l) ==> r == PlanOf(l)
    ensures (forall l :: Normalize(level) != Key(l)) ==> r == PlanOf(Moderate)
  {
    ResolveKey(level);
    PlanOf(Resolve(level))
  }

  /** A normalised level that is some level's key resolves to that level. */
  lemma ResolveKey(level: Option<string>)
    ensures forall l :: Normalize(level) == Key(l) ==> Resolve(level) == l
  {
    forall l | Normalize(level) == Key(l)
      ensures Resolve(level) == l
    {
      LevelForKey(l);
    }
  }

  /** The plan as the ordered dictionary the caller receives: the seven day names in order, each with its workout. */
  function AsDays(w: Week): (r: seq<(string, string)>)
    ensures |r| == 7
    ensures forall i :: 0 <= i < 7 ==> r[i].0 == DayNames[i]
  {
    [("Sunday", w.sunday), ("Monday", w.monday), ("Tuesday", w.tuesday), ("Wednesday", w.wednesday),
     ("Thursday", w.thursday), ("Friday", w.friday), ("Saturday", w.saturday)]
  }

  /** Every level's key is found again by the lookup, so the table has an entry per level. */
  lemma LevelForKey(l: Level)
    ensures LevelFor(Key(l)) == Some(l)
  {
  }

  /** A string without upper-case letters is its own lower-case form. */
  lemma {:induction false} LowerOfLower(s: string)
    requires forall i :: 0 <= i < |s| ==> !IsUpper(s[i])
    ensures Lower(s) == s
  {
    if s != [] {
      LowerOfLower(s[1..]);
    }
  }

  /** Asking for a level by its key returns that level's plan. */
  lemma KnownLevel(l: Level)
    ensures Resolve(Some(Key(l))) == l
    ensures WeeklyWorkoutPlan(Some(Key(l))) == PlanOf(l)
  {
    LowerOfLower(Key(l));
    LevelForKey(l);
  }

  /** No level, or an empty one, gives the sedentary plan. */
  lemma AbsentIsSedentary()
    ensures Resolve(None) == Sedentary && Resolve(Some("")) == Sedentary
  {
    LevelForKey(Sedentary);
  }

  /** The level is matched without regard to case. */
  lemma CaseInsensitive(s: string)
    ensures Resolve(Some(s)) == Resolve(Some(Lower(s)))
  {
    LowerIdempotent(s);
  }

  /** A non-empty level whose lower-cased form is not a key falls back to the moderate plan. */
  lemma UnknownIsModerate(s: string)
    requires s != ""
    requires forall l: Level :: Lower(s) != Key(l)
    ensures Resolve(Some(s)) == Moderate
  {
  }
}
