/**
 * The records the quiz handlers work on: rounds, clues, the single
 * competition-window record, the player record and the replies.
 */
module Models {
  import opened Wrappers

  /** A point on the map, as a clue's getPosition() gives it. */
  datatype Position = Position(x: real, y: real)

  /** A round of the quiz; its answer check is World.roundAccepts. */
  datatype Round = Round(roundNumber: int, question: string)

  /** A clue, owned by the round with number roundNumber; its answer check is World.clueAccepts. */
  datatype Clue = Clue(id: int, roundNumber: int, question: string, position: Position)

  /** The competition-window record (the first `duration` row). */
  datatype Duration = Duration(
    startTime: int,
    endTime: int,
    maxQuestion: int,
    leaderboardFreeze: bool,
    leaderboardHide: bool)

  /**
   * What the handlers read besides the player: the window record if any,
   * the rounds by round number, all clues in store order, and the two
   * answer checks, which are not part of this model and stay uninterpreted.
   */
  datatype World = World(
    dur: Option<Duration>,
    rounds: map<int, Round>,
    clues: seq<Clue>,
    roundAccepts: (Round, string) -> bool,
    clueAccepts: (Clue, string) -> bool)

  /** The part of a player record that the handlers change. */
  datatype Progress = Progress(roundNo: int, score: int, submitTime: int, solved: set<int>)

  /** One player row as the leaderboard queries read it. */
  datatype PlayerRow = PlayerRow(
    email: string,
    firstName: string,
    imageLink: string,
    score: int,
    submitTime: int,
    isStaff: bool)

  /**
   * The outcome of a handler: 410 "Quiz not active", 404 "Finished!",
   * 404, 500 "Wrong Answer", or 200 with a payload.
   */
  datatype Reply<T> = Inactive | Finished | NotFound | WrongAnswer | Ok(value: T)

  /** A player record, updated in place by the answer handlers. */
  class Player {
    var name: string
    var email: string
    var firstName: string
    var imageLink: string
    var isStaff: bool
    var roundNo: int
    var score: int
    var submitTime: int
    var solved: set<int>

    /** The progress fields as one value. */
    function State(): Progress
      reads this
    {
      Progress(roundNo, score, submitTime, solved)
    }

    /** checkClue: has this player solved the clue with this id? */
    predicate CheckClue(id: int)
      reads this
    {
      id in solved
    }

    /** putClues: record the clue with this id as solved. */
    method PutClues(id: int)
      modifies this
      ensures State() == old(State()).(solved := old(solved) + {id})
      ensures CheckClue(id)
      ensures name == old(name) && email == old(email) && isStaff == old(isStaff)
      ensures firstName == old(firstName) && imageLink == old(imageLink)
    {
      solved := solved + {id};
    }
  }

  /** The staff flag of a looked-up player; None when the lookup found no player. */
  function StaffOf(p: Player?): Option<bool>
    reads p
  {
    if p == null then None else Some(p.isStaff)
  }
}
