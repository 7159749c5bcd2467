/**
 * src/components/ActivityCard.tsx: the kudos button of a feed card and
 * the badge with the activity's icon, colour and label. The two state
 * fields `isLiked` and `kudosCount` are fields of a class that
 * `handleKudos` updates together.
 */
module ActivityCard {
  import opened Text
  import opened Icons

  class Card {
    /** `activity.kudos`, fixed for the card's lifetime. */
    const kudos: int
    var isLiked: bool
    var kudosCount: int
    /** How often the kudos button was pressed. */
    ghost var presses: nat

    /** The count is the activity's kudos plus one while liked; odd presses leave it liked. */
    ghost predicate Valid()
      reads this
    {
      && kudosCount == kudos + (if isLiked then 1 else 0)
      && isLiked == (presses % 2 == 1)
    }

    /** Not liked, showing the activity's own kudos. */
    constructor (kudos: int)
      ensures this.kudos == kudos && !isLiked && kudosCount == kudos && presses == 0
      ensures Valid()
    {
      this.kudos := kudos;
      isLiked := false;
      kudosCount := kudos;
      presses := 0;
    }

    /**
     * `handleKudos`: flip `isLiked`, and move the count up when it becomes
     * liked and down when it becomes unliked (the updater reads the
     * `isLiked` of the render that handled the click).
     */
    method HandleKudos()
      requires Valid()
      modifies this
      ensures Valid()
      ensures isLiked == !old(isLiked) && presses == old(presses) + 1
      ensures kudosCount == if old(isLiked) then old(kudosCount) - 1 else old(kudosCount) + 1
      ensures kudosCount - kudos == presses % 2
    {
      var wasLiked := isLiked;
      isLiked := !wasLiked;
      kudosCount := if wasLiked then kudosCount - 1 else kudosCount + 1;
      presses := presses + 1;
    }
  }

  /** `getActivityIcon`: a switch over the four types with the runner as default. */
  function ActivityIcon(kind: string): string {
    match kind
    case "run" => Runner
    case "ride" => Cyclist
    case "swim" => Swimmer
    case "workout" => Biceps
    case _ => Runner
  }

  /** The card's switch and the report's lookup table give every type the same icon. */
  lemma ActivityIconAgrees(kind: string)
    ensures ActivityIcon(kind) == EmojiFor(WorkoutEmoji, kind)
    ensures kind !in WorkoutEmoji ==> ActivityIcon(kind) == ActivityIcon("run")
  {
    if kind !in ["run", "ride", "swim", "workout"] {
      assert kind !in WorkoutEmoji;
    }
  }

  /** `getActivityColor`: the badge classes, green like "run" by default. */
  function ActivityColor(kind: string): (c: string)
    ensures kind !in ["ride", "swim", "workout"] ==> c == "text-green-600 bg-green-100"
    ensures c == "text-green-600 bg-green-100" || c == "text-blue-600 bg-blue-100" ||
            c == "text-cyan-600 bg-cyan-100" || c == "text-purple-600 bg-purple-100"
  {
    match kind
    case "run" => "text-green-600 bg-green-100"
    case "ride" => "text-blue-600 bg-blue-100"
    case "swim" => "text-cyan-600 bg-cyan-100"
    case "workout" => "text-purple-600 bg-purple-100"
    case _ => "text-green-600 bg-green-100"
  }

  /** The four types have four different colours. */
  lemma ColorsDistinct(a: string, b: string)
    requires a in ["run", "ride", "swim", "workout"] && b in ["run", "ride", "swim", "workout"]
    requires a != b
    ensures ActivityColor(a) != ActivityColor(b)
  {
  }

  /** The badge label is `Capitalize` of the type: "run" reads "Run". */
  lemma TypeLabels()
    ensures Capitalize("run") == "Run" && Capitalize("workout") == "Workout"
  {
    var l := Capitalize("run");
    assert l[1..] == "un";
    var w := Capitalize("workout");
    assert w[1..] == "orkout";
  }
}
