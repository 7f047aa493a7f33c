/**
 * The request handlers: getRound, checkRound, getClue, putClue,
 * leaderboard and getuserscore, with centrePoint. Each handler receives
 * the player found by name (null when there is none), the stored rounds,
 * clues and window record, and the current time.
 */
module Views {
  import opened Wrappers
  import opened Models
  import opened Policy
  import opened Engine
  import opened Ranking

  /** centrePoint: accumulates the round's clue positions and divides by their count. */
  method CentrePoint(clues: seq<Clue>, roundNumber: int) returns (c: Position)
    ensures c == Mean(CluesOf(clues, roundNumber))
  {
    var cs := CluesOf(clues, roundNumber);
    if |cs| == 0 {
      return Position(0.0, 0.0);
    }
    var x, y := 0.0, 0.0;
    var i := 0;
    while i < |cs|
      invariant 0 <= i <= |cs|
      invariant x == Sum(cs[..i], X) && y == Sum(cs[..i], Y)
    {
      assert cs[..i + 1][..i] == cs[..i];
      x := x + cs[i].position.x;
      y := y + cs[i].position.y;
      i := i + 1;
    }
    assert cs[..i] == cs;
    c := Position(x / |cs| as real, y / |cs| as real);
  }

  /** What getRound shows: the round and its centre point. */
  datatype RoundView = RoundView(round: Round, centre: Position)

  /** getRound: the player's current round, or "Finished!". */
  method GetRound(player: Player?, w: World, now: int) returns (r: Reply<RoundView>)
    ensures r.Inactive? <==> CheckDuration(w.dur, StaffOf(player), now)
    ensures !CheckDuration(w.dur, StaffOf(player), now) ==>
      (r.Finished? <==>
        || player == null
        || player.roundNo !in w.rounds
        || (w.dur.Some? && player.roundNo > w.dur.value.maxQuestion))
    ensures r.Ok? || r.Inactive? || r.Finished?
    ensures r.Ok? ==>
      && player != null
      && player.roundNo in w.rounds
      && r.value.round == w.rounds[player.roundNo]
      && r.value.centre == Mean(CluesOf(w.clues, player.roundNo))
  {
    if CheckDuration(w.dur, StaffOf(player), now) {
      return Inactive;
    }
    if player == null || player.roundNo !in w.rounds {
      return Finished;
    }
    var current := w.rounds[player.roundNo];
    if w.dur.Some? && player.roundNo > w.dur.value.maxQuestion {
      return Finished;
    }
    var centre := CentrePoint(w.clues, player.roundNo);
    r := Ok(RoundView(current, centre));
  }

  /** checkRound: judge an answer to the player's current round. */
  method CheckRound(player: Player?, w: World, now: int, answer: string) returns (r: Reply<()>)
    modifies player
    ensures player == null ==>
      r == (if CheckDuration(w.dur, None, now) then Inactive else NotFound)
    ensures player != null ==>
      && player.isStaff == old(player.isStaff)
      && Step(r, player.State()) == AnswerRound(w, player.isStaff, old(player.State()), now, answer)
    ensures player != null ==>
      && player.name == old(player.name) && player.email == old(player.email)
      && player.firstName == old(player.firstName) && player.imageLink == old(player.imageLink)
  {
    if CheckDuration(w.dur, StaffOf(player), now) {
      return Inactive;
    }
    if player == null || player.roundNo !in w.rounds {
      return NotFound;
    }
    var current := w.rounds[player.roundNo];
    if w.roundAccepts(current, answer) {
      if !Frozen(w.dur) {
        player.score := player.score + 10;
      }
      player.roundNo := player.roundNo + 1;
      player.submitTime := now;
      return Ok(());
    }
    return WrongAnswer;
  }

  /** One entry of getClue's list; position is shown only for a solved clue. */
  datatype ClueItem = ClueItem(id: int, question: string, solved: bool, position: Option<Position>)

  /** getClue: the clues of the player's current round, in store order. */
  method GetClue(player: Player?, w: World, now: int) returns (r: Reply<seq<ClueItem>>)
    ensures r.Inactive? <==> CheckDuration(w.dur, StaffOf(player), now)
    ensures !CheckDuration(w.dur, StaffOf(player), now) ==>
      (r.NotFound? <==> player == null || player.roundNo !in w.rounds)
    ensures r.Ok? || r.Inactive? || r.NotFound?
    ensures r.Ok? ==> player != null
    ensures r.Ok? && player != null ==>
      var cs := CluesOf(w.clues, player.roundNo);
      && |r.value| == |cs|
      && forall i :: 0 <= i < |cs| ==>
        && r.value[i].id == cs[i].id
        && r.value[i].question == cs[i].question
        && (r.value[i].solved <==> cs[i].id in player.solved)
        && r.value[i].position == (if r.value[i].solved then Some(cs[i].position) else None)
  {
    if CheckDuration(w.dur, StaffOf(player), now) {
      return Inactive;
    }
    if player == null || player.roundNo !in w.rounds {
      return NotFound;
    }
    var cs := CluesOf(w.clues, player.roundNo);
    var items: seq<ClueItem> := [];
    var i := 0;
    while i < |cs|
      invariant 0 <= i <= |cs|
      invariant |items| == i
      invariant forall k :: 0 <= k < i ==>
        && items[k].id == cs[k].id
        && items[k].question == cs[k].question
        && (items[k].solved <==> cs[k].id in player.solved)
        && items[k].position == (if items[k].solved then Some(cs[k].position) else None)
    {
      var c := cs[i];
      var isSolved := player.CheckClue(c.id);
      var item := ClueItem(c.id, c.question, isSolved, None);
      if isSolved {
        item := item.(position := Some(c.position));
      }
      items := items + [item];
      i := i + 1;
    }
    r := Ok(items);
  }

  /** putClue: judge an answer to a clue; clueId is None when int(clue_id) raises. */
  method PutClue(player: Player?, w: World, now: int, clueId: Option<int>, answer: string)
    returns (r: Reply<Position>)
    modifies player
    ensures player == null ==>
      r == (if CheckDuration(w.dur, None, now) then Inactive else NotFound)
    ensures player != null ==>
      && player.isStaff == old(player.isStaff)
      && Step(r, player.State()) == AnswerClue(w, player.isStaff, old(player.State()), now, clueId, answer)
    ensures player != null ==>
      && player.name == old(player.name) && player.email == old(player.email)
      && player.firstName == old(player.firstName) && player.imageLink == old(player.imageLink)
  {
    if CheckDuration(w.dur, StaffOf(player), now) {
      return Inactive;
    }
    if player == null || clueId.None? {
      return NotFound;
    }
    var found := FindClue(w.clues, clueId.value);
    if found.None? {
      return NotFound;
    }
    var clue := found.value;
    if w.clueAccepts(clue, answer) {
      player.PutClues(clue.id);
      return Ok(clue.position);
    }
    return WrongAnswer;
  }

  /** One leaderboard line. */
  datatype Standing = Standing(name: string, rank: int, score: int, image: string)

  /** The leaderboard's reply: the standings, and whether they are hidden (status 203). */
  datatype Board = Board(standings: seq<Standing>, hidden: bool)

  /** leaderboard: the non-staff players in ranking order, numbered 1..n. */
  method Leaderboard(dur: Option<Duration>, rows: seq<PlayerRow>) returns (b: Board)
    ensures b.hidden <==> IsHidden(dur)
    ensures b.hidden ==> b.standings == []
    ensures !b.hidden ==>
      && |b.standings| == |Ranked(rows)|
      && forall i :: 0 <= i < |b.standings| ==>
        b.standings[i] == Standing(Ranked(rows)[i].firstName, i + 1, Ranked(rows)[i].score,
                                   Ranked(rows)[i].imageLink)
    ensures forall i, j :: 0 <= i < j < |b.standings| ==> b.standings[i].score >= b.standings[j].score
  {
    if IsHidden(dur) {
      return Board([], true);
    }
    var players := Ranked(rows);
    var data := Enumerate(players);
    StandingScores(players, data);
    b := Board(data, false);
  }

  /** The enumerate(…, 1) loop: one standing per row, numbered from 1. */
  method Enumerate(players: seq<PlayerRow>) returns (data: seq<Standing>)
    ensures |data| == |players|
    ensures forall i :: 0 <= i < |data| ==>
      data[i] == Standing(players[i].firstName, i + 1, players[i].score, players[i].imageLink)
  {
    data := [];
    var rank := 1;
    while rank <= |players|
      invariant 1 <= rank <= |players| + 1
      invariant |data| == rank - 1
      invariant forall i :: 0 <= i < |data| ==>
        data[i] == Standing(players[i].firstName, i + 1, players[i].score, players[i].imageLink)
    {
      var p := players[rank - 1];
      data := data + [Standing(p.firstName, rank, p.score, p.imageLink)];
      rank := rank + 1;
    }
  }

  lemma StandingScores(players: seq<PlayerRow>, data: seq<Standing>)
    requires Sorted(players) && |data| == |players|
    requires forall i :: 0 <= i < |data| ==> data[i].score == players[i].score
    ensures forall i, j :: 0 <= i < j < |data| ==> data[i].score >= data[j].score
  {
    forall i, j | 0 <= i < j < |data| ensures data[i].score >= data[j].score {
      SortedScores(players, i, j);
    }
  }

  /** getuserscore's reply. */
  datatype ScoreView = ScoreView(score: int, rank: int, name: string, email: string)

  /**
   * getuserscore: the player's score and 1-based place in the leaderboard
   * order, found by e-mail; 0 when no non-staff player has that e-mail.
   */
  method GetUserScore(player: Player?, rows: seq<PlayerRow>) returns (r: Reply<ScoreView>)
    ensures r.NotFound? <==> player == null
    ensures r.Ok? || r.NotFound?
    ensures r.Ok? ==>
      && r.value.score == player.score
      && r.value.name == player.firstName
      && r.value.email == player.email
      && RankIn(Ranked(rows), player.email, r.value.rank)
  {
    if player == null {
      return NotFound;
    }
    var allPlayers := Ranked(rows);
    var rank := FirstWithEmail(allPlayers, player.email);
    r := Ok(ScoreView(player.score, rank, player.firstName, player.email));
  }

  /**
   * rank is 1 + the index of the first row of players with this e-mail,
   * or 0 when no row has it.
   */
  predicate RankIn(players: seq<PlayerRow>, email: string, rank: int)
  {
    && 0 <= rank <= |players|
    && (rank == 0 <==> forall j :: 0 <= j < |players| ==> players[j].email != email)
    && (rank > 0 ==> players[rank - 1].email == email)
    && forall j :: 0 <= j < rank - 1 ==> players[j].email != email
  }

  /** The enumerate loop with break: 1 + the index of the first row with this e-mail, or 0. */
  method FirstWithEmail(players: seq<PlayerRow>, email: string) returns (rank: int)
    ensures RankIn(players, email, rank)
  {
    rank := 0;
    var i := 0;
    while i < |players|
      invariant 0 <= i <= |players|
      invariant rank == 0
      invariant forall j :: 0 <= j < i ==> players[j].email != email
    {
      if players[i].email == email {
        rank := i + 1;
        break;
      }
      i := i + 1;
    }
  }
}
