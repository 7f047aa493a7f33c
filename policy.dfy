/** The competition-window policy: who may play now, and the leaderboard flags. */
module Policy {
  import opened Wrappers
  import opened Models

  /**
   * check_duration: true means BLOCKED. `staff` is the outcome of looking the
   * player up by name (None when that lookup raises, which the source
   * catches and answers with "blocked").
   */
  function CheckDuration(dur: Option<Duration>, staff: Option<bool>, now: int): (blocked: bool)
    // no window record: everybody may play, even an unknown user
    ensures dur.None? ==> !blocked
    // a window record and no player record: blocked
    ensures dur.Some? && staff.None? ==> blocked
    // staff are never blocked
    ensures staff == Some(true) ==> !blocked
    // everyone else plays exactly inside the open interval (start, end)
    ensures dur.Some? && staff == Some(false) ==>
      (blocked <==> now <= dur.value.startTime || dur.value.endTime <= now)
  {
    if dur.None? then false
    else if staff.None? then true
    else if staff.value then false
    else if dur.value.startTime < now && now < dur.value.endTime then false
    else true
  }

  /** isHidden: a window record exists and its leaderboard_hide flag is set. */
  function IsHidden(dur: Option<Duration>): (hidden: bool)
    ensures dur.None? ==> !hidden
    ensures dur.Some? ==> (hidden <==> dur.value.leaderboardHide)
  {
    dur.Some? && dur.value.leaderboardHide
  }

  /** A window record exists and its leaderboard_freeze flag is set. */
  function Frozen(dur: Option<Duration>): (frozen: bool)
    ensures dur.None? ==> !frozen
    ensures dur.Some? ==> (frozen <==> dur.value.leaderboardFreeze)
  {
    dur.Some? && dur.value.leaderboardFreeze
  }
}
