/**
 * The leaderboard ordering: non-staff players by score, highest first,
 * ties broken by the earlier submission time.
 */
module Ranking {
  import opened Models

  /** a may stand before b: a higher score, or the same score submitted no later. */
  predicate Before(a: PlayerRow, b: PlayerRow)
  {
    a.score > b.score || (a.score == b.score && a.submitTime <= b.submitTime)
  }

  predicate Sorted(s: seq<PlayerRow>)
  {
    forall i, j :: 0 <= i < j < |s| ==> Before(s[i], s[j])
  }

  /** filter(isStaff=False), keeping the table's order. */
  function NonStaff(rows: seq<PlayerRow>): (r: seq<PlayerRow>)
    ensures |r| <= |rows|
    ensures forall e :: e in r <==> e in rows && !e.isStaff
  {
    if rows == [] then []
    else if rows[0].isStaff then NonStaff(rows[1..])
    else [rows[0]] + NonStaff(rows[1..])
  }

  /**
   * Places x in a sorted sequence in front of the first row it may stand
   * before; at an exact tie on score and submit time, x goes first.
   */
  function Insert(x: PlayerRow, s: seq<PlayerRow>): (r: seq<PlayerRow>)
    requires Sorted(s)
    ensures Sorted(r)
    ensures multiset(r) == multiset(s) + multiset{x}
  {
    if s == [] then [x]
    else if Before(x, s[0]) then [x] + s
    else
      var tail := Insert(x, s[1..]);
      assert s == [s[0]] + s[1..];
      assert Before(s[0], x);
      assert forall k :: 0 <= k < |tail| ==> Before(s[0], tail[k]) by {
        forall k | 0 <= k < |tail| ensures Before(s[0], tail[k]) {
          assert tail[k] in multiset(tail);
          if tail[k] != x {
            assert tail[k] in multiset(s[1..]);
            var m :| 0 <= m < |s[1..]| && s[1..][m] == tail[k];
            assert s[m + 1] == tail[k];
          }
        }
      }
      [s[0]] + tail
  }

  /** order_by("-score", "submit_time"). */
  function OrderBy(s: seq<PlayerRow>): (r: seq<PlayerRow>)
    ensures Sorted(r)
    ensures multiset(r) == multiset(s)
  {
    if s == [] then []
    else
      assert s == [s[0]] + s[1..];
      Insert(s[0], OrderBy(s[1..]))
  }

  /**
   * Player.objects.filter(isStaff=False).order_by("-score", "submit_time"):
   * exactly the non-staff rows, in leaderboard order.
   */
  function Ranked(rows: seq<PlayerRow>): (r: seq<PlayerRow>)
    ensures Sorted(r)
    ensures multiset(r) == multiset(NonStaff(rows))
    ensures forall e :: e in r <==> e in rows && !e.isStaff
  {
    var r := OrderBy(NonStaff(rows));
    assert forall e :: e in r <==> e in NonStaff(rows) by {
      forall e ensures e in r <==> e in NonStaff(rows) {
        assert e in r <==> e in multiset(r);
      }
    }
    r
  }

  /**
   * Two rows ahead of a third by score stand before it; in particular, the
   * leaderboard never places a lower score above a higher one.
   */
  lemma SortedScores(s: seq<PlayerRow>, i: int, j: int)
    requires Sorted(s) && 0 <= i < j < |s|
    ensures s[i].score >= s[j].score
    ensures s[i].score == s[j].score ==> s[i].submitTime <= s[j].submitTime
  {
    assert Before(s[i], s[j]);
  }

  /**
   * An e-mail is missing from the leaderboard order exactly when no
   * non-staff row carries it: a staff player, or one with no row, ranks 0.
   */
  lemma AbsentFromRanking(rows: seq<PlayerRow>, email: string)
    ensures (forall j :: 0 <= j < |Ranked(rows)| ==> Ranked(rows)[j].email != email)
        <==> (forall e :: e in rows && !e.isStaff ==> e.email != email)
  {
    var r := Ranked(rows);
    if forall j :: 0 <= j < |r| ==> r[j].email != email {
      forall e | e in rows && !e.isStaff ensures e.email != email {
        assert e in r;
        var k :| 0 <= k < |r| && r[k] == e;
      }
    } else {
      var k :| 0 <= k < |r| && r[k].email == email;
      assert r[k] in r;
    }
  }

  /**
   * A staff player whose e-mail no other row shares is missing from the
   * ranking, so getuserscore gives that player rank 0.
   */
  lemma StaffRanksZero(rows: seq<PlayerRow>, me: PlayerRow)
    requires me in rows && me.isStaff
    requires forall e :: e in rows && e.email == me.email ==> e == me
    ensures forall j :: 0 <= j < |Ranked(rows)| ==> Ranked(rows)[j].email != me.email
  {
    AbsentFromRanking(rows, me.email);
  }

  /** A non-staff player's row appears in the ranking, so that player's rank is positive. */
  lemma NonStaffRanked(rows: seq<PlayerRow>, me: PlayerRow)
    requires me in rows && !me.isStaff
    ensures exists j :: 0 <= j < |Ranked(rows)| && Ranked(rows)[j].email == me.email
  {
    AbsentFromRanking(rows, me.email);
  }

  /** Equal scores are broken by the earlier submission: A(30, t1), B(30, t0), C(20) rank B, A, C. */
  lemma TieBrokenBySubmitTime(a: PlayerRow, b: PlayerRow, c: PlayerRow)
    requires a.score == 30 && b.score == 30 && c.score == 20
    requires b.submitTime < a.submitTime
    requires !a.isStaff && !b.isStaff && !c.isStaff
    ensures Ranked([a, b, c]) == [b, a, c]
  {
    AllNonStaff(a, b, c);
    OrderOfThree(a, b, c);
  }

  lemma AllNonStaff(a: PlayerRow, b: PlayerRow, c: PlayerRow)
    requires !a.isStaff && !b.isStaff && !c.isStaff
    ensures NonStaff([a, b, c]) == [a, b, c]
  {
    assert [a, b, c][1..] == [b, c] && [b, c][1..] == [c] && [c][1..] == [];
    assert NonStaff([c]) == [c];
    assert NonStaff([b, c]) == [b, c];
  }

  lemma OrderOfThree(a: PlayerRow, b: PlayerRow, c: PlayerRow)
    requires a.score == 30 && b.score == 30 && c.score == 20
    requires b.submitTime < a.submitTime
    ensures OrderBy([a, b, c]) == [b, a, c]
  {
    assert [a, b, c][1..] == [b, c];
    OrderOfTwo(b, c);
    InsertBetween(a, b, c);
  }

  lemma OrderOfTwo(b: PlayerRow, c: PlayerRow)
    requires b.score > c.score
    ensures OrderBy([b, c]) == [b, c]
  {
    assert [b, c][1..] == [c] && [c][1..] == [];
    assert OrderBy([c]) == [c];
  }

  lemma InsertBetween(a: PlayerRow, b: PlayerRow, c: PlayerRow)
    requires a.score == b.score && b.submitTime < a.submitTime && a.score > c.score
    ensures Sorted([b, c]) && Insert(a, [b, c]) == [b, a, c]
  {
    assert Sorted([b, c]);
    assert [b, c][1..] == [c];
    assert Insert(a, [c]) == [a, c];
  }
}
