/** The leaderboard (`components/Leaderboard.tsx`): the fetched ranking is
    shown as it arrives, never re-sorted; its first three rows go on the
    podium and the others into a numbered table. */
module Leaderboard {
  import opened Common
  import opened Types

  /** `topUsers.slice(0, 3)` */
  function Top3(rows: seq<RankRow>): (t: seq<RankRow>)
    ensures |t| == Min(3, |rows|)
    ensures forall i :: 0 <= i < |t| ==> t[i] == rows[i]
  {
    rows[..Min(3, |rows|)]
  }

  /** `topUsers.slice(3)` */
  function Rest(rows: seq<RankRow>): (r: seq<RankRow>)
    ensures |r| == Max(0, |rows| - 3)
    ensures forall i :: 0 <= i < |r| ==> r[i] == rows[i + 3]
  {
    rows[Min(3, |rows|)..]
  }

  /** The two slices split the list exactly, in order. */
  lemma SplitIsExact(rows: seq<RankRow>)
    ensures Top3(rows) + Rest(rows) == rows
  {
  }

  /** A row of the table under the podium. */
  datatype TableRow = TableRow(rank: int, row: RankRow, isYou: bool)

  /** What the component shows: a spinner, the empty message, or the podium
      (slots for ranks 1, 2, 3, each present or not), the table and whether
      the footer hint is shown. */
  datatype View =
    | Spinner
    | EmptyMessage
    | Ranking(podium: seq<Option<RankRow>>, table: seq<TableRow>, footer: bool)

  /** The `i`-th rest row is numbered `i + 4`; the "You" highlight marks the
      row whose `user_id` equals the current user's id (none when no id is
      given). */
  function Table(rest: seq<RankRow>, currentUserId: Option<string>): (t: seq<TableRow>)
    ensures |t| == |rest|
    ensures forall i :: 0 <= i < |t| ==>
      t[i].row == rest[i] && t[i].rank == i + 4 && (t[i].isYou <==> currentUserId == Some(rest[i].userId))
  {
    seq(|rest|, i requires 0 <= i < |rest| => TableRow(i + 4, rest[i], currentUserId == Some(rest[i].userId)))
  }

  function Render(loading: bool, rows: seq<RankRow>, currentUserId: Option<string>): (v: View)
    ensures loading <==> v == Spinner
    ensures v == EmptyMessage <==> !loading && rows == []
    ensures v.Ranking? ==> |v.podium| == 3 && |v.table| == Max(0, |rows| - 3)
    ensures v.Ranking? ==> (forall k :: 0 <= k < 3 ==> (v.podium[k].Some? <==> k < |rows|))
    ensures v.Ranking? ==> (v.footer <==> |rows| > 5)
  {
    if loading then Spinner
    else if |rows| == 0 then EmptyMessage
    else
      var top3 := Top3(rows);
      var slot := (k: nat) => if k < |top3| then Some(top3[k]) else None;
      Ranking([slot(0), slot(1), slot(2)], Table(Rest(rows), currentUserId), |rows| > 5)
  }

  /** Every position of the fetched list is shown exactly once, under its
      1-based position as its rank: the first three on the podium, the
      others in the table. The highlight never touches the podium. */
  lemma RankIsPosition(rows: seq<RankRow>, currentUserId: Option<string>, p: nat)
    requires rows != [] && p < |rows|
    ensures var v := Render(false, rows, currentUserId);
      if p < 3 then v.podium[p] == Some(rows[p])
      else v.table[p - 3].rank == p + 1 && v.table[p - 3].row == rows[p]
  {
  }

  /** The table's ranks are strictly increasing and start at 4, so no rank
      is repeated and none collides with the podium. */
  lemma TableRanksIncrease(rest: seq<RankRow>, currentUserId: Option<string>)
    ensures var t := Table(rest, currentUserId);
      forall i, j :: 0 <= i < j < |t| ==> 4 <= t[i].rank < t[j].rank
  {
  }
}
