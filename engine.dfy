/**
 * The round-progression and scoring rules of the quiz handlers, as pure
 * functions on a player's progress: what a round answer and a clue answer
 * do, the clues of a round, and a round's centre point.
 */
module Engine {
  import opened Wrappers
  import opened Models
  import opened Policy

  /** Clue.objects.filter(round=...): the clues of round n, in store order. */
  function CluesOf(clues: seq<Clue>, n: int): (r: seq<Clue>)
    ensures |r| <= |clues|
    ensures forall c :: c in r <==> c in clues && c.roundNumber == n
  {
    if clues == [] then []
    else if clues[0].roundNumber == n then [clues[0]] + CluesOf(clues[1..], n)
    else CluesOf(clues[1..], n)
  }

  /** Clue.objects.get(pk=id): the clue with this id, if the store has one. */
  function FindClue(clues: seq<Clue>, id: int): (r: Option<Clue>)
    ensures r.Some? ==> r.value in clues && r.value.id == id
    ensures r.None? ==> forall c :: c in clues ==> c.id != id
  {
    if clues == [] then None
    else if clues[0].id == id then Some(clues[0])
    else FindClue(clues[1..], id)
  }

  datatype Axis = X | Y

  function Coord(p: Position, a: Axis): real
  {
    match a
    case X => p.x
    case Y => p.y
  }

  /** The sum of one coordinate of the clues' positions. */
  function Sum(cs: seq<Clue>, a: Axis): real
  {
    if cs == [] then 0.0 else Sum(cs[..|cs| - 1], a) + Coord(cs[|cs| - 1].position, a)
  }

  /** centrePoint: the mean clue position, or (0, 0) for a round without clues. */
  function Mean(cs: seq<Clue>): Position
  {
    if cs == [] then Position(0.0, 0.0)
    else Position(Sum(cs, X) / |cs| as real, Sum(cs, Y) / |cs| as real)
  }

  /** n copies of v added up. */
  function Repeat(v: real, n: nat): real
  {
    if n == 0 then 0.0 else Repeat(v, n - 1) + v
  }

  lemma {:induction false} RepeatIsProduct(v: real, n: nat)
    ensures Repeat(v, n) == v * n as real
  {
    if n > 0 {
      RepeatIsProduct(v, n - 1);
      assert v * n as real == v * (n - 1) as real + v;
    }
  }

  lemma {:induction false} SumBounds(cs: seq<Clue>, a: Axis, lo: real, hi: real)
    requires forall i :: 0 <= i < |cs| ==> lo <= Coord(cs[i].position, a) <= hi
    ensures Repeat(lo, |cs|) <= Sum(cs, a) <= Repeat(hi, |cs|)
  {
    if cs != [] {
      var init := cs[..|cs| - 1];
      assert forall i :: 0 <= i < |init| ==> init[i] == cs[i];
      SumBounds(init, a, lo, hi);
    }
  }

  /** The centre point lies inside every box that holds all the round's clues. */
  lemma MeanWithinBounds(cs: seq<Clue>, a: Axis, lo: real, hi: real)
    requires forall c :: c in cs ==> lo <= Coord(c.position, a) <= hi
    requires cs != []
    ensures lo <= Coord(Mean(cs), a) <= hi
  {
    assert forall i :: 0 <= i < |cs| ==> cs[i] in cs;
    SumBounds(cs, a, lo, hi);
    assert Coord(Mean(cs), a) == Sum(cs, a) / |cs| as real;
    AverageBounds(lo, hi, Sum(cs, a), |cs|);
  }

  lemma AverageBounds(lo: real, hi: real, s: real, k: nat)
    requires k > 0 && Repeat(lo, k) <= s <= Repeat(hi, k)
    ensures lo <= s / k as real <= hi
  {
    RepeatIsProduct(lo, k);
    RepeatIsProduct(hi, k);
    var n := k as real;
    DivideBounds(lo * n, s, hi * n, n);
    Cancel(lo, n);
    Cancel(hi, n);
  }

  lemma Cancel(x: real, n: real)
    requires n > 0.0
    ensures x * n / n == x
  {
  }

  lemma DivideBounds(l: real, s: real, h: real, n: real)
    requires n > 0.0 && l <= s <= h
    ensures l / n <= s / n <= h / n
  {
  }

  /** Clues at (0, 0) and (2, 4) have their centre at (1, 2). */
  lemma MeanOfTwoClues(round: int)
    ensures Mean([Clue(1, round, "a", Position(0.0, 0.0)), Clue(2, round, "b", Position(2.0, 4.0))])
            == Position(1.0, 2.0)
  {
    var c1 := Clue(1, round, "a", Position(0.0, 0.0));
    var c2 := Clue(2, round, "b", Position(2.0, 4.0));
    var cs := [c1, c2];
    assert cs[..1] == [c1] && [c1][..0] == [];
    assert Sum([c1], X) == Sum([], X) + 0.0;
    assert Sum([c1], Y) == Sum([], Y) + 0.0;
    assert Sum(cs, X) == Sum([c1], X) + 2.0;
    assert Sum(cs, Y) == Sum([c1], Y) + 4.0;
  }

  /** The result of a handler together with the player's progress after it. */
  datatype Step<T> = Step(reply: Reply<T>, after: Progress)

  /** The update of a correct round answer. */
  function Credit(p: Progress, dur: Option<Duration>, now: int): Progress
  {
    p.(roundNo := p.roundNo + 1,
       score := if Frozen(dur) then p.score else p.score + 10,
       submitTime := now)
  }

  /** checkRound on an existing player whose staff flag is isStaff. */
  function AnswerRound(w: World, isStaff: bool, p: Progress, now: int, answer: string): (s: Step<()>)
    ensures s.reply.Inactive? <==> CheckDuration(w.dur, Some(isStaff), now)
    ensures s.reply.NotFound? <==> !CheckDuration(w.dur, Some(isStaff), now) && p.roundNo !in w.rounds
    ensures s.reply.WrongAnswer? <==>
      !CheckDuration(w.dur, Some(isStaff), now) && p.roundNo in w.rounds
      && !w.roundAccepts(w.rounds[p.roundNo], answer)
    ensures s.reply.Ok? || s.reply.Inactive? || s.reply.NotFound? || s.reply.WrongAnswer?
    // a refused answer changes nothing
    ensures !s.reply.Ok? ==> s.after == p
    // a correct answer: one round further, stamped now, +10 unless frozen
    ensures s.reply.Ok? ==>
      && s.after.roundNo == p.roundNo + 1
      && s.after.submitTime == now
      && s.after.score == (if Frozen(w.dur) then p.score else p.score + 10)
      && s.after.solved == p.solved
  {
    if CheckDuration(w.dur, Some(isStaff), now) then Step(Inactive, p)
    else if p.roundNo !in w.rounds then Step(NotFound, p)
    else if w.roundAccepts(w.rounds[p.roundNo], answer) then Step(Ok(()), Credit(p, w.dur, now))
    else Step(WrongAnswer, p)
  }

  /**
   * putClue on an existing player. clueId is None when int(clue_id)
   * raises on the request's value.
   */
  function AnswerClue(w: World, isStaff: bool, p: Progress, now: int, clueId: Option<int>, answer: string)
    : (s: Step<Position>)
    ensures s.reply.Inactive? <==> CheckDuration(w.dur, Some(isStaff), now)
    ensures s.reply.NotFound? <==>
      !CheckDuration(w.dur, Some(isStaff), now)
      && (clueId.None? || forall c :: c in w.clues ==> c.id != clueId.value)
    ensures s.reply.Ok? <==>
      !CheckDuration(w.dur, Some(isStaff), now) && clueId.Some?
      && FindClue(w.clues, clueId.value).Some?
      && w.clueAccepts(FindClue(w.clues, clueId.value).value, answer)
    ensures !s.reply.Finished?
    // a refused answer changes nothing
    ensures !s.reply.Ok? ==> s.after == p
    // a correct answer reveals the clue's position and only marks it solved
    ensures s.reply.Ok? ==>
      && s.reply.value == FindClue(w.clues, clueId.value).value.position
      && s.after.solved == p.solved + {clueId.value}
      && s.after.roundNo == p.roundNo
      && s.after.score == p.score
      && s.after.submitTime == p.submitTime
  {
    if CheckDuration(w.dur, Some(isStaff), now) then Step(Inactive, p)
    else if clueId.None? then Step(NotFound, p)
    else match FindClue(w.clues, clueId.value)
      case None => Step(NotFound, p)
      case Some(clue) =>
        if w.clueAccepts(clue, answer) then Step(Ok(clue.position), p.(solved := p.solved + {clue.id}))
        else Step(WrongAnswer, p)
  }

  /** A state-changing request of one player. */
  datatype Request =
    | RoundAnswer(now: int, answer: string)
    | ClueAnswer(now: int, clueId: Option<int>, answer: string)

  function Apply(w: World, isStaff: bool, p: Progress, req: Request): Progress
  {
    match req
    case RoundAnswer(now, answer) => AnswerRound(w, isStaff, p, now, answer).after
    case ClueAnswer(now, clueId, answer) => AnswerClue(w, isStaff, p, now, clueId, answer).after
  }

  /** The progress after handling the requests one after the other. */
  function Run(w: World, isStaff: bool, p: Progress, reqs: seq<Request>): Progress
    decreases |reqs|
  {
    if reqs == [] then p else Run(w, isStaff, Apply(w, isStaff, p, reqs[0]), reqs[1..])
  }

  /**
   * Over any sequence of requests the round number and the score never
   * decrease, the solved set only grows, and points come only from rounds:
   * ten per round advanced at most, in multiples of ten.
   */
  lemma {:induction false} RunMonotone(w: World, isStaff: bool, p: Progress, reqs: seq<Request>)
    ensures var q := Run(w, isStaff, p, reqs);
      && p.roundNo <= q.roundNo
      && p.score <= q.score
      && p.solved <= q.solved
      && q.score - p.score <= 10 * (q.roundNo - p.roundNo)
      && (q.score - p.score) % 10 == 0
    decreases |reqs|
  {
    if reqs != [] {
      var p1 := Apply(w, isStaff, p, reqs[0]);
      RunMonotone(w, isStaff, p1, reqs[1..]);
      var q := Run(w, isStaff, p1, reqs[1..]);
      assert q.score - p.score == (q.score - p1.score) + (p1.score - p.score);
    }
  }

  /** While the leaderboard is frozen no sequence of requests changes the score. */
  lemma {:induction false} FrozenRunKeepsScore(w: World, isStaff: bool, p: Progress, reqs: seq<Request>)
    requires Frozen(w.dur)
    ensures Run(w, isStaff, p, reqs).score == p.score
    decreases |reqs|
  {
    if reqs != [] {
      FrozenRunKeepsScore(w, isStaff, Apply(w, isStaff, p, reqs[0]), reqs[1..]);
    }
  }

  /** Solving a clue a second time succeeds again and changes nothing. */
  lemma SolveClueTwice(w: World, isStaff: bool, p: Progress, now1: int, now2: int, id: int, answer: string)
    requires AnswerClue(w, isStaff, p, now1, Some(id), answer).reply.Ok?
    requires !CheckDuration(w.dur, Some(isStaff), now2)
    ensures var q := AnswerClue(w, isStaff, p, now1, Some(id), answer).after;
      && AnswerClue(w, isStaff, q, now2, Some(id), answer).reply.Ok?
      && AnswerClue(w, isStaff, q, now2, Some(id), answer).after == q
  {
  }

  /**
   * checkRound does not look at max_question: a round past the ceiling,
   * which getRound reports as finished, is still credited when answered.
   */
  lemma CreditPastMaxQuestion(w: World, isStaff: bool, p: Progress, now: int, answer: string)
    requires w.dur.Some? && p.roundNo > w.dur.value.maxQuestion
    requires p.roundNo in w.rounds && w.roundAccepts(w.rounds[p.roundNo], answer)
    requires !CheckDuration(w.dur, Some(isStaff), now)
    ensures AnswerRound(w, isStaff, p, now, answer).reply.Ok?
    ensures AnswerRound(w, isStaff, p, now, answer).after.roundNo == p.roundNo + 1
  {
  }
}
