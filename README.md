# Quiz round-progression and scoring engine, in Dafny

This project models the game logic of the Digital Fortress quiz backend
(`Quiz/views.py`). A player works through numbered rounds. A correct round
answer moves the player to the next round and, unless the leaderboard is
frozen, earns 10 points. Clues inside a round reveal map positions once they
are solved. A single `duration` record sets the play window, the round
ceiling and the leaderboard freeze and hide flags. The leaderboard ranks
non-staff players by score, and ties go to the earlier submission.

Layout:

- `wrappers.dfy`: `Option`.
- `models.dfy`: the records (`Round`, `Clue`, `Duration`, `PlayerRow`), the
  `World` a handler reads, the handler replies, and the class `Player`. The
  answer handlers update a `Player` in place.
- `policy.dfy`: `check_duration` (`CheckDuration`, where true means blocked),
  `isHidden` (`IsHidden`) and the freeze test (`Frozen`).
- `engine.dfy`: pure specifications. These cover the clues of a round, clue
  lookup, the centre point (`Mean`), and what a round answer and a clue answer
  do to a player's `Progress` (`AnswerRound`, `AnswerClue`). Lemmas cover
  whole sequences of requests (`Run`).
- `ranking.dfy`: the order `order_by("-score", "submit_time")` over
  non-staff rows. It is an insertion sort proved sorted and a permutation.
- `views.dfy`: the handlers as methods (`GetRound`, `CheckRound`, `GetClue`,
  `PutClue`, `Leaderboard`, `GetUserScore`, `CentrePoint`). Each one is
  proved against the specification functions above.

Conventions:

- A handler gets the player found by `Player.objects.get(name=username)`.
  That is `null` when the lookup raises.
- `now` stands for `timezone.now()` and is an integer parameter.
- Positions are pairs of `real`.
- `checkAnswer` on rounds and clues lives in `Quiz/models.py`, which is not
  part of this model. It is the uninterpreted functions `World.roundAccepts`
  and `World.clueAccepts`.
- `checkClue` and `putClues` are modelled as set membership and set insertion
  (`Player.CheckClue`, `Player.PutClues`). `getPosition` is the field
  `Clue.position`.

Behaviour of the code that the model keeps as written:

- `check_duration` fails closed. An exception, such as a user with no
  `Player` record while a `duration` record exists, gives "blocked".
- Leaderboard ranks are ordinal positions 1..n from `enumerate`. Tied players
  get distinct ranks, not a dense rank.
- `getuserscore` does not consult the play window. It answers 404 only when
  the player lookup fails. It gives rank 0 for a player whose e-mail no
  non-staff row carries, for example a staff player with a unique e-mail
  (lemma `Ranking.StaffRanksZero`).
- `checkRound` and `getClue` do not compare `roundNo` with `max_question`.
  Only `getRound` does. So a round past the ceiling that still exists is
  credited when answered (lemma `Engine.CreditPastMaxQuestion`).
- `putClue` does not check that the clue belongs to the player's current
  round.

## Model

| member | source | states |
|---|---|---|
| `Policy.CheckDuration` | Quiz/views.py:29-44 | Play is allowed when no duration record exists, or when the player is staff, or when start < now < end strictly. A non-staff player outside that open interval is blocked. A user with no Player record is blocked once a duration record exists. |
| `Policy.IsHidden` | Quiz/views.py:46-48 | The leaderboard is hidden exactly when a duration record exists and its hide flag is set. Without a record it is never hidden. |
| `Policy.Frozen` | Quiz/views.py:251-252 | Scoring is frozen exactly when a duration record exists and its freeze flag is set. Without a record it is never frozen. |
| `Engine.CluesOf` | Quiz/views.py:294 | The filtered clues are exactly the store's clues whose round is the given one. The result is no longer than the store. |
| `Engine.FindClue` | Quiz/views.py:314 | The lookup by primary key returns a stored clue with that id. It returns nothing only when no stored clue has that id. |
| `Engine.SumBounds` | Quiz/views.py:105-110 | When every clue coordinate lies in [lo, hi], the accumulated sum of n coordinates lies between lo added n times and hi added n times. |
| `Engine.MeanWithinBounds` | Quiz/views.py:100-113 | The centre point of a non-empty round lies inside every box that contains all of the round's clue positions. |
| `Engine.MeanOfTwoClues` | Quiz/views.py:100-113 | Clues at (0, 0) and (2, 4) have their centre at (1, 2). |
| `Views.CentrePoint` | Quiz/views.py:100-113 | The accumulating loop returns the mean of the round's clue positions, or (0, 0) when the round has no clues. |
| `Engine.AnswerRound` | Quiz/views.py:242-261 | A blocked request gives 410, a missing round gives 404 and a rejected answer gives 500. None of these changes the player. A correct answer sets roundNo to roundNo + 1 and submit_time to now. It adds 10 to the score unless freeze is set, and leaves the solved set alone. |
| `Engine.AnswerClue` | Quiz/views.py:308-322 | A blocked request gives 410. An unparsable or unknown clue id gives 404 and a rejected answer gives 500. None of these changes the player. A correct answer returns the clue's position and adds its id to the solved set. It leaves score, roundNo and submit_time unchanged, whatever round the clue belongs to. |
| `Engine.RunMonotone` | Quiz/views.py:250-258 | Over any sequence of round and clue answers, roundNo and score never decrease and the solved set only grows. The score gain is a multiple of 10 and at most 10 per round advanced. |
| `Engine.FrozenRunKeepsScore` | Quiz/views.py:251-253 | While leaderboard_freeze is set, no sequence of answers changes the score. |
| `Engine.SolveClueTwice` | Quiz/views.py:316-317 | Re-submitting a solved clue's correct answer succeeds again and changes nothing. |
| `Engine.CreditPastMaxQuestion` | Quiz/views.py:247-258 | A correct answer to an existing round numbered above max_question is still credited, though getRound reports that round as finished. |
| `Views.GetRound` | Quiz/views.py:220-239 | A blocked request gives 410. Otherwise the reply is "Finished!" exactly when the player is missing, no round has number roundNo, or a duration record exists and roundNo > max_question. In every other case it returns that round with the mean of its clue positions. |
| `Views.CheckRound` | Quiz/views.py:242-261 | The player's new progress and the reply are those of AnswerRound. With no player the reply is 410 when a duration record exists and 404 when none does. The player's identity fields are unchanged. |
| `Views.GetClue` | Quiz/views.py:287-305 | A blocked request gives 410. A missing player or round gives 404. Otherwise there is one entry per clue of the current round, in store order. An entry is solved exactly when its id is in the player's solved set, and it carries a position exactly when it is solved. |
| `Views.PutClue` | Quiz/views.py:308-322 | The player's new progress and the reply are those of AnswerClue. With no player the reply is 410 when a duration record exists and 404 when none does. |
| `Models.Player.PutClues` | Quiz/views.py:317 | The clue id joins the solved set. Nothing else about the player changes. |
| `Views.Leaderboard` | Quiz/views.py:130-144 | When the hide flag is set, the standings are empty and marked hidden. Otherwise entry i is the i-th ranked non-staff row with rank i + 1, and scores never increase down the list. |
| `Views.Enumerate` | Quiz/views.py:136-143 | The numbering loop gives one standing per ranked row, in order, with rank i + 1 and that row's name, score and image. |
| `Views.FirstWithEmail` | Quiz/views.py:270-274 | The search loop with break returns 1 + the index of the first row with the e-mail. It returns 0 exactly when no row has it. |
| `Views.GetUserScore` | Quiz/views.py:264-284 | A missing player gives 404. Otherwise the reply carries the player's score, name and e-mail. The rank is 1 + the index of the first ranked row with the player's e-mail, or 0 when there is no such row. |
| `Ranking.NonStaff` | Quiz/views.py:135 | The filtered rows are exactly the non-staff rows of the table. |
| `Ranking.Insert` | Quiz/views.py:135 | Inserting a row into a sorted list keeps it sorted and adds exactly that row. |
| `Ranking.OrderBy` | Quiz/views.py:135 | The ordering is sorted by score descending, then submit_time ascending. It is a permutation of its input. |
| `Ranking.Ranked` | Quiz/views.py:268 | The ranking query is sorted and holds exactly the non-staff rows, with their multiplicities. |
| `Ranking.SortedScores` | Quiz/views.py:135 | An earlier row in the ranking has at least the score of a later one. At equal scores it has the earlier or equal submit_time. |
| `Ranking.AbsentFromRanking` | Quiz/views.py:268-274 | An e-mail is absent from the ranking exactly when no non-staff row has it. |
| `Ranking.StaffRanksZero` | Quiz/views.py:268-274 | A staff player whose e-mail no other row shares is absent from the ranking, so getuserscore gives rank 0. |
| `Ranking.NonStaffRanked` | Quiz/views.py:268-274 | A non-staff player's e-mail appears in the ranking, so getuserscore gives a positive rank. |
| `Ranking.TieBrokenBySubmitTime` | Quiz/views.py:135 | A(30, t1), B(30, t0 < t1), C(20) are ranked B, A, C. |

## Left out

- Google and GitHub token verification (`verifyGoogleToken`, `verifyGithubToken`) is left out. It is network and OAuth library calls.
- `Register` and `Login` are left out. They reference undefined names and a stub `Player.objects.create(...)`, and `Login` defines `post` twice. Both paths delete the user's tokens and then create a new one. Token storage belongs to the knox library.
- `LeaderBoardDownload` and `verifyUser` are left out. The first is a password check against configuration plus CSV output, which is I/O.
- `Views.CentrePoint`: does not model the `Decimal` sums or the final `float` conversion. The mean is exact over `real`.
- `timezone.now()` is an integer parameter. Timestamps are integers. The source reads the clock twice in `checkRound`, once in `check_duration` (`Quiz/views.py:31`) and once for `submit_time` (`Quiz/views.py:256`). The model uses one `now` for both.
- The ORM query and `save()` machinery, the serializers and the HTTP status wrapping are left out. `RoundSerializer` output is modelled as the `Round` value (its number and question). Its other fields are not part of this model.
- `Views.GetUserScore`: only `Player.DoesNotExist` is caught at `Quiz/views.py:283`. Any other exception would escape the handler, and the model does not include those.
- `Views.Leaderboard`: the database's order for rows with equal score and equal submit_time is not specified. The model keeps a fixed order for such rows. A missing (null) submit_time is not modelled.
- Concurrent double submission of `checkRound` is left out. Each handler is one sequential step.
- `Round.checkAnswer`, `Clue.checkAnswer`, `Player.checkClue`, `Player.putClues` and `Clue.getPosition` are defined in `Quiz/models.py`, which is not part of this model. The two answer checks are uninterpreted. The other three are set membership, set insertion and a stored position. An absent `answer` field is not distinguished from a string.
- `leaderboard_hide == 1` is modelled as a boolean flag. Only the first `duration` record is consulted, as in the source. `Digital_Fortress_Backend/settings.py` is configuration only.
- Uniqueness of `round_number` and of clue primary keys is assumed, not checked. Rounds are a map keyed by round number, and `FindClue` returns the first clue with the id. In the source a duplicate `round_number` makes `Round.objects.get` raise, so getRound replies "Finished!" and checkRound and getClue reply 404. The model does not cover that case, and it does not require `rounds[k].roundNumber == k`.
- `Views.GetUserScore`: the looked-up player is not tied to the table rows, and e-mails are not required to be unique. A staff player whose e-mail is shared by a non-staff row gets that row's rank.
