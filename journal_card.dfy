/**
 * The display logic of one journal card: the mood's label, the two-stop
 * gradient behind the mood emoji, which actions the card offers, and what
 * answering the delete confirmation does.
 */
module JournalCard {
  import opened Common

  /** The label under the emoji: a chain of three comparisons whose last arm is "Calm". */
  function MoodLabel(mood: string): (name: string)
    ensures name in {"Happy", "Sad", "Angry", "Calm"}
    ensures name == "Happy" <==> mood == Happy
    ensures name == "Sad" <==> mood == Sad
    ensures name == "Angry" <==> mood == Angry
    ensures name == "Calm" <==> mood !in {Happy, Sad, Angry}
  {
    if mood == Happy then "Happy"
    else if mood == Sad then "Sad"
    else if mood == Angry then "Angry"
    else "Calm"
  }

  /** `getMoodColor`: the gradient stops for a mood; any other string falls to the default arm. */
  function MoodColors(mood: string): (colors: seq<string>)
    ensures |colors| == 2
    ensures mood == Happy ==> colors == ["#FF9D6C", "#FF6B9D"]
    ensures mood == Sad ==> colors == ["#6C8CFF", "#6CFFD2"]
    ensures mood == Angry ==> colors == ["#FF6C6C", "#FF9D6C"]
    ensures mood == Calm ==> colors == ["#6CFF8C", "#6CFFD2"]
    ensures mood !in {Happy, Sad, Angry, Calm} ==> colors == ["#6C8CFF", "#6CFFD2"]
  {
    match mood
    case "😊" => ["#FF9D6C", "#FF6B9D"]
    case "😢" => ["#6C8CFF", "#6CFFD2"]
    case "😡" => ["#FF6C6C", "#FF9D6C"]
    case "😌" => ["#6CFF8C", "#6CFFD2"]
    case _ => ["#6C8CFF", "#6CFFD2"]
  }

  /**
   * A mood outside the four emojis is labelled "Calm" but painted with
   * the gradient of 😢, not that of 😌: label and colour disagree.
   */
  lemma UnknownMoodLabelAndColour(mood: string)
    requires mood !in {Happy, Sad, Angry, Calm}
    ensures MoodLabel(mood) == MoodLabel(Calm)
    ensures MoodColors(mood) == MoodColors(Sad) != MoodColors(Calm)
  {
  }

  /** The buttons of the confirmation dialog shown by `handleDelete`. */
  datatype Choice = CancelPressed | DeletePressed

  /** The actions in the card's header. */
  datatype Action = Edit | Delete

  /**
   * What answering the dialog does: the ids passed to `onDelete`, in
   * order. `entry.id` is optional in the entry type and is passed as it is.
   */
  function OnDeleteCalls(choice: Choice, id: Option<string>): (calls: seq<Option<string>>)
    ensures calls != [] <==> choice == DeletePressed
    ensures forall k :: 0 <= k < |calls| ==> calls[k] == id
    ensures |calls| <= 1
  {
    match choice
    case CancelPressed => []
    case DeletePressed => [id]
  }

  /** The actions shown; `showActions` defaults to true when the prop is not passed. */
  function VisibleActions(showActions: Option<bool>): (actions: set<Action>)
    ensures actions == {} || actions == {Edit, Delete}
    ensures actions == {Edit, Delete} <==> showActions != Some(false)
  {
    var shown := match showActions case None => true case Some(b) => b;
    if shown then {Edit, Delete} else {}
  }
}
