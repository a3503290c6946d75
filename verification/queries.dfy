/**
 * The tables of the prediction-market service and the read-only queries over
 * them (backend/main.py): the rows of `users`, `predictions` and `events`, the
 * JSON bodies the endpoints return, the `/events`, `/user/{id}/history` and
 * `/leaderboard` projections, and the query that selects who is paid when an
 * event is settled.
 *
 * A table is a sequence of rows: `users` and `predictions` in the order they
 * were inserted, `events` in the order given to the ledger. The model does
 * not keep the tables in primary-key order. The database's `CURRENT_TIMESTAMP`
 * is replaced by an insertion counter, `stamp`.
 */
module Queries {
  import opened Optional

  /** Balance of a user on first contact, and the balance assumed for an unknown user. */
  const StartingBalance := 500
  /** Price of one prediction. */
  const Stake := 100
  /** Credit for each winning prediction when an event is settled. */
  const Payout := 200
  /** Number of rows the leaderboard shows. */
  const LeaderboardSize := 10

  const Active := "active"
  const Finished := "finished"

  /** A row of `users`. */
  datatype UserRow = UserRow(userId: int, username: string, balance: int, referredBy: Option<int>)

  /** A row of `predictions`; `stamp` orders the rows by insertion time. */
  datatype Prediction = Prediction(userId: int, eventId: int, optionId: int, stamp: nat)

  /** A row of `events`; `winner` stays NULL until the event is settled. */
  datatype EventRow = EventRow(id: int, title: string, option1: string, option2: string, status: string, winner: Option<int>)

  // The JSON bodies of the endpoints.
  datatype OptionView = OptionView(id: int, name: string)
  datatype MarketEvent = MarketEvent(id: int, title: string, options: seq<OptionView>)
  datatype Outcome = Pending | Won | Lost
  datatype HistoryEntry = HistoryEntry(eventTitle: string, chosenOption: string, result: Outcome)
  datatype LeaderEntry = LeaderEntry(username: string, balance: int)
  datatype UserReply = UserReply(userId: int, balance: int)
  /** `{"status": "success", "new_balance": ...}` or `{"status": "error", "message": ...}`. */
  datatype PredictReply = Accepted(newBalance: int) | Rejected(message: string)

  const InsufficientBalance := "Insufficient balance"

  /** `user_id` is the primary key of `users`. */
  ghost predicate UniqueUserIds(users: seq<UserRow>) {
    forall i, j | 0 <= i < j < |users| :: users[i].userId != users[j].userId
  }

  /** `id` is the primary key of `events`. */
  ghost predicate UniqueEventIds(events: seq<EventRow>) {
    forall i, j | 0 <= i < j < |events| :: events[i].id != events[j].id
  }

  /** Later rows of `predictions` carry later stamps. */
  ghost predicate StampsIncreasing(preds: seq<Prediction>) {
    forall i, j | 0 <= i < j < |preds| :: preds[i].stamp < preds[j].stamp
  }

  /** `SELECT ... FROM users WHERE user_id = ?`: the position of the user's row, if any. */
  function IndexOfUser(users: seq<UserRow>, userId: int): (r: Option<nat>)
    ensures r.Some? ==> r.value < |users| && users[r.value].userId == userId
    ensures r.None? ==> forall i | 0 <= i < |users| :: users[i].userId != userId
  {
    if users == [] then None
    else if users[0].userId == userId then Some(0)
    else match IndexOfUser(users[1..], userId)
      case None => None
      case Some(k) => Some(k + 1)
  }

  /** The balance `make_prediction` works with: the stored one, or 500 for an unknown user. */
  function StoredBalance(users: seq<UserRow>, userId: int): (b: int)
    ensures (forall i | 0 <= i < |users| :: users[i].userId != userId) ==> b == StartingBalance
    ensures forall i | 0 <= i < |users| && users[i].userId == userId ::
              UniqueUserIds(users) ==> b == users[i].balance
  {
    match IndexOfUser(users, userId)
    case Some(i) => users[i].balance
    case None => StartingBalance
  }

  /** The row of `events` with the given id, if any (the JOIN of the history query). */
  function FindEvent(events: seq<EventRow>, id: int): (r: Option<EventRow>)
    ensures r.Some? ==> r.value in events && r.value.id == id
    ensures r.None? ==> forall e | e in events :: e.id != id
  {
    if events == [] then None
    else if events[0].id == id then Some(events[0])
    else FindEvent(events[1..], id)
  }

  // ---------------------------------------------------------------- /events

  /** How `get_events` presents one event: always exactly two options, ids 1 and 2. */
  function EventView(e: EventRow): MarketEvent {
    MarketEvent(e.id, e.title, [OptionView(1, e.option1), OptionView(2, e.option2)])
  }

  /** The positions of the active events. */
  ghost function ActiveRows(events: seq<EventRow>): set<nat> {
    set i: nat | i < |events| && events[i].status == Active
  }

  /** The last event adds its own position to the active rows when it is active. */
  lemma ActiveRowsSnoc(events: seq<EventRow>)
    requires events != []
    ensures var n := |events| - 1;
            |ActiveRows(events)| == |ActiveRows(events[..n])| + (if events[n].status == Active then 1 else 0)
  {
    var n := |events| - 1;
    var before := ActiveRows(events[..n]);
    var after := ActiveRows(events);
    assert forall i | 0 <= i < n :: events[..n][i] == events[i];
    if events[n].status == Active {
      assert after == before + {n};
      assert n !in before;
    } else {
      assert after == before;
    }
  }

  /**
   * `get_events`: the events whose status is "active", in the order of the
   * sequence, one entry per active row.
   */
  function ActiveEvents(events: seq<EventRow>): (r: seq<MarketEvent>)
    ensures |r| == |ActiveRows(events)|
    ensures |r| <= |events|
    ensures forall m | m in r :: |m.options| == 2 && m.options[0].id == 1 && m.options[1].id == 2
    ensures forall e | e in events && e.status == Active :: EventView(e) in r
    ensures forall m | m in r :: exists e :: e in events && e.status == Active && EventView(e) == m
  {
    if events == [] then []
    else
      var n := |events| - 1;
      var rest := ActiveEvents(events[..n]);
      assert forall e | e in events[..n] :: e in events;
      assert events == events[..n] + [events[n]];
      ActiveRowsSnoc(events);
      if events[n].status == Active then rest + [EventView(events[n])] else rest
  }

  // ---------------------------------------------------------------- /user/{id}/history

  /** One row of the history query: a prediction joined with its event. */
  datatype HistoryRow = HistoryRow(pred: Prediction, event: EventRow)

  /** The positions of the user's predictions whose event exists. */
  ghost function ShownRows(preds: seq<Prediction>, events: seq<EventRow>, userId: int): set<nat> {
    set i: nat | i < |preds| && preds[i].userId == userId && FindEvent(events, preds[i].eventId).Some?
  }

  /** The last prediction adds its own position to the shown rows when it is the user's on an existing event. */
  lemma ShownRowsSnoc(preds: seq<Prediction>, events: seq<EventRow>, userId: int)
    requires preds != []
    ensures var n := |preds| - 1;
            var p := preds[n];
            |ShownRows(preds, events, userId)|
            == |ShownRows(preds[..n], events, userId)| + (if p.userId == userId && FindEvent(events, p.eventId).Some? then 1 else 0)
  {
    var n := |preds| - 1;
    var p := preds[n];
    var before := ShownRows(preds[..n], events, userId);
    var after := ShownRows(preds, events, userId);
    assert forall i | 0 <= i < n :: preds[..n][i] == preds[i];
    if p.userId == userId && FindEvent(events, p.eventId).Some? {
      assert after == before + {n};
      assert n !in before;
    } else {
      assert after == before;
    }
  }

  /**
   * The rows of the history query: the user's predictions whose event exists,
   * newest first (the last inserted prediction comes first).
   */
  function UserRows(preds: seq<Prediction>, events: seq<EventRow>, userId: int): (r: seq<HistoryRow>)
    ensures |r| == |ShownRows(preds, events, userId)|
    ensures |r| <= |preds|
    ensures forall row | row in r ::
              row.pred in preds && row.pred.userId == userId && FindEvent(events, row.pred.eventId) == Some(row.event)
  {
    if preds == [] then []
    else
      var p := preds[|preds| - 1];
      var older := UserRows(preds[..|preds| - 1], events, userId);
      assert forall q | q in preds[..|preds| - 1] :: q in preds;
      ShownRowsSnoc(preds, events, userId);
      if p.userId != userId then older
      else match FindEvent(events, p.eventId)
        case Some(e) => [HistoryRow(p, e)] + older
        case None => older
  }

  /** Every prediction of the user on an existing event appears in the history rows. */
  lemma {:induction false} UserRowsComplete(preds: seq<Prediction>, events: seq<EventRow>, userId: int, p: Prediction, e: EventRow)
    requires p in preds && p.userId == userId && FindEvent(events, p.eventId) == Some(e)
    ensures HistoryRow(p, e) in UserRows(preds, events, userId)
  {
    var n := |preds| - 1;
    if p != preds[n] {
      assert p in preds[..n] by {
        var k :| 0 <= k < |preds| && preds[k] == p;
        assert k < n && preds[..n][k] == p;
      }
      UserRowsComplete(preds[..n], events, userId, p, e);
    }
  }

  /** Earlier rows carry strictly later stamps. */
  ghost predicate NewestFirst(rows: seq<HistoryRow>) {
    forall i, j | 0 <= i < j < |rows| :: rows[i].pred.stamp > rows[j].pred.stamp
  }

  /** The history rows are ordered newest first, with no two rows of the same stamp. */
  lemma {:induction false} UserRowsNewestFirst(preds: seq<Prediction>, events: seq<EventRow>, userId: int)
    requires StampsIncreasing(preds)
    ensures NewestFirst(UserRows(preds, events, userId))
  {
    if preds != [] {
      var n := |preds| - 1;
      var init := preds[..n];
      assert StampsIncreasing(init);
      UserRowsNewestFirst(init, events, userId);
      var older := UserRows(init, events, userId);
      var r := UserRows(preds, events, userId);
      if r != older {
        assert r == [r[0]] + older && r[0].pred == preds[n];
        RowsBefore(preds, events, userId);
        NewestInFront(r[0], older);
      }
    }
  }

  /** The rows from all but the last prediction are older than the last prediction. */
  lemma RowsBefore(preds: seq<Prediction>, events: seq<EventRow>, userId: int)
    requires StampsIncreasing(preds) && preds != []
    ensures forall row | row in UserRows(preds[..|preds| - 1], events, userId) ::
              row.pred.stamp < preds[|preds| - 1].stamp
  {
    var n := |preds| - 1;
    forall row | row in UserRows(preds[..n], events, userId)
      ensures row.pred.stamp < preds[n].stamp
    {
      var k :| 0 <= k < n && preds[..n][k] == row.pred;
      assert preds[k] == row.pred;
    }
  }

  /** A row newer than every row of a newest-first list can go in front of it. */
  lemma NewestInFront(head: HistoryRow, rows: seq<HistoryRow>)
    requires NewestFirst(rows)
    requires forall row | row in rows :: row.pred.stamp < head.pred.stamp
    ensures NewestFirst([head] + rows)
  {
    var r := [head] + rows;
    forall i, j | 0 <= i < j < |r|
      ensures r[i].pred.stamp > r[j].pred.stamp
    {
      assert r[j] == rows[j - 1];
      if i > 0 {
        assert r[i] == rows[i - 1];
      } else {
        assert rows[j - 1] in rows;
      }
    }
  }

  /** How `get_user_history` labels one row. */
  function Describe(row: HistoryRow): (h: HistoryEntry)
    ensures h.eventTitle == row.event.title
    ensures h.chosenOption == if row.pred.optionId == 1 then row.event.option1 else row.event.option2
    ensures h.result == Pending <==> row.event.status != Finished
    ensures h.result == Won <==> row.event.status == Finished && row.event.winner == Some(row.pred.optionId)
    ensures h.result == Lost <==> row.event.status == Finished && row.event.winner != Some(row.pred.optionId)
  {
    var chosen := if row.pred.optionId == 1 then row.event.option1 else row.event.option2;
    var result :=
      if row.event.status != Finished then Pending
      else if row.event.winner == Some(row.pred.optionId) then Won
      else Lost;
    HistoryEntry(row.event.title, chosen, result)
  }

  /** `x` labels one of the user's own predictions joined with its event. */
  ghost predicate DescribesOwnPrediction(preds: seq<Prediction>, events: seq<EventRow>, userId: int, x: HistoryEntry) {
    exists p, e :: p in preds && p.userId == userId && FindEvent(events, p.eventId) == Some(e) && x == Describe(HistoryRow(p, e))
  }

  /**
   * `get_user_history`: one labelled entry per history row, in the same
   * order: exactly as many entries as the user has predictions on existing
   * events, each describing one of them joined with its event.
   */
  function GetUserHistory(preds: seq<Prediction>, events: seq<EventRow>, userId: int): (h: seq<HistoryEntry>)
    ensures |h| == |ShownRows(preds, events, userId)|
    ensures |h| <= |preds|
    ensures forall i | 0 <= i < |h| :: DescribesOwnPrediction(preds, events, userId, h[i])
  {
    var rows := UserRows(preds, events, userId);
    var h := seq(|rows|, i requires 0 <= i < |rows| => Describe(rows[i]));
    RowsDescribeOwnPredictions(preds, events, userId, rows, h);
    h
  }

  lemma RowsDescribeOwnPredictions(preds: seq<Prediction>, events: seq<EventRow>, userId: int,
                                   rows: seq<HistoryRow>, h: seq<HistoryEntry>)
    requires rows == UserRows(preds, events, userId)
    requires |h| == |rows| && forall i | 0 <= i < |h| :: h[i] == Describe(rows[i])
    ensures forall i | 0 <= i < |h| :: DescribesOwnPrediction(preds, events, userId, h[i])
  {
    forall i | 0 <= i < |h|
      ensures DescribesOwnPrediction(preds, events, userId, h[i])
    {
      var row := rows[i];
      assert row in rows;
      assert row == HistoryRow(row.pred, row.event);
    }
  }

  /**
   * Every prediction of the user on an existing event is shown in the history,
   * labelled by its event, and the history is never longer than the table.
   */
  lemma HistoryShowsEveryPrediction(preds: seq<Prediction>, events: seq<EventRow>, userId: int, p: Prediction, e: EventRow)
    requires p in preds && p.userId == userId && FindEvent(events, p.eventId) == Some(e)
    ensures Describe(HistoryRow(p, e)) in GetUserHistory(preds, events, userId)
    ensures |GetUserHistory(preds, events, userId)| <= |preds|
  {
    var rows := UserRows(preds, events, userId);
    UserRowsComplete(preds, events, userId, p, e);
    var k :| 0 <= k < |rows| && rows[k] == HistoryRow(p, e);
    assert GetUserHistory(preds, events, userId)[k] == Describe(HistoryRow(p, e));
  }

  // ---------------------------------------------------------------- /leaderboard

  ghost predicate NonIncreasing(s: seq<UserRow>) {
    forall i, j | 0 <= i < j < |s| :: s[i].balance >= s[j].balance
  }

  /** Inserts `u` into a list ordered by non-increasing balance. */
  function InsertByBalance(u: UserRow, s: seq<UserRow>): (r: seq<UserRow>)
    requires NonIncreasing(s)
    ensures NonIncreasing(r)
    ensures multiset(r) == multiset(s) + multiset{u}
  {
    if s == [] || u.balance >= s[0].balance then [u] + s
    else
      var rest := InsertByBalance(u, s[1..]);
      assert s == [s[0]] + s[1..];
      HeadAboveRest(s[0], u, s[1..], rest);
      [s[0]] + rest
  }

  /** Putting `h` in front of `rest` keeps the order when nothing in `rest` exceeds it. */
  lemma HeadAboveRest(h: UserRow, u: UserRow, tail: seq<UserRow>, rest: seq<UserRow>)
    requires NonIncreasing([h] + tail) && NonIncreasing(rest)
    requires u.balance < h.balance && multiset(rest) == multiset(tail) + multiset{u}
    ensures NonIncreasing([h] + rest)
  {
    forall i | 0 <= i < |rest|
      ensures rest[i].balance <= h.balance
    {
      assert rest[i] in multiset(rest);
      if rest[i] != u {
        assert rest[i] in multiset(tail);
        var k :| 0 <= k < |tail| && tail[k] == rest[i];
        assert ([h] + tail)[0] == h && ([h] + tail)[k + 1] == rest[i];
      }
    }
    var s := [h] + rest;
    forall i, j | 0 <= i < j < |s|
      ensures s[i].balance >= s[j].balance
    {
      if i > 0 {
        assert s[i] == rest[i - 1] && s[j] == rest[j - 1];
      } else {
        assert s[j] == rest[j - 1];
      }
    }
  }

  /** `ORDER BY balance DESC`: the rows reordered by non-increasing balance. */
  function SortByBalance(s: seq<UserRow>): (r: seq<UserRow>)
    ensures NonIncreasing(r)
    ensures multiset(r) == multiset(s)
  {
    if s == [] then []
    else
      assert s == [s[0]] + s[1..];
      InsertByBalance(s[0], SortByBalance(s[1..]))
  }

  /** A leaderboard entry shows one user's name and balance. */
  function Entry(u: UserRow): LeaderEntry {
    LeaderEntry(u.username, u.balance)
  }

  /** The rows of a list, as leaderboard entries, in the same order. */
  function Entries(rows: seq<UserRow>): seq<LeaderEntry> {
    seq(|rows|, i requires 0 <= i < |rows| => Entry(rows[i]))
  }

  /** The first ten rows of a list, as leaderboard entries. */
  function TopEntries(sorted: seq<UserRow>): seq<LeaderEntry> {
    var k := if |sorted| < LeaderboardSize then |sorted| else LeaderboardSize;
    Entries(sorted[..k])
  }

  /**
   * `get_leaderboard`: the (username, balance) pairs of the ten richest users,
   * richest first; no user is shown more often than they occur in the table,
   * and every user left out has no more than the last one shown.
   */
  function GetLeaderboard(users: seq<UserRow>): (r: seq<LeaderEntry>)
    ensures |r| == if |users| < LeaderboardSize then |users| else LeaderboardSize
    ensures forall i, j | 0 <= i < j < |r| :: r[i].balance >= r[j].balance
    ensures multiset(r) <= multiset(Entries(users))
    ensures forall i | 0 <= i < |r| :: exists u :: u in users && r[i] == Entry(u)
    ensures forall u | u in users :: Entry(u) in r || u.balance <= r[|r| - 1].balance
  {
    var sorted := SortByBalance(users);
    TopIsTop(users, sorted);
    TopWithinUsers(users);
    TopEntries(sorted)
  }

  /** Entries of a concatenation are the concatenated entries. */
  lemma EntriesAppend(a: seq<UserRow>, b: seq<UserRow>)
    ensures Entries(a + b) == Entries(a) + Entries(b)
  {
  }

  /** The entries of a row put in front of a list. */
  lemma EntriesCons(u: UserRow, s: seq<UserRow>)
    ensures multiset(Entries([u] + s)) == multiset{Entry(u)} + multiset(Entries(s))
  {
    EntriesAppend([u], s);
    assert Entries([u]) == [Entry(u)];
  }

  /** Inserting a row adds exactly its entry to the entries. */
  lemma {:induction false} InsertEntries(u: UserRow, s: seq<UserRow>)
    requires NonIncreasing(s)
    ensures multiset(Entries(InsertByBalance(u, s))) == multiset(Entries(s)) + multiset{Entry(u)}
  {
    if s == [] || u.balance >= s[0].balance {
      EntriesCons(u, s);
    } else {
      var tail := s[1..];
      assert s == [s[0]] + tail;
      assert NonIncreasing(tail);
      InsertEntries(u, tail);
      EntriesCons(s[0], InsertByBalance(u, tail));
      EntriesCons(s[0], tail);
    }
  }

  /** Sorting reorders the entries and neither adds nor drops any. */
  lemma {:induction false} SortEntries(s: seq<UserRow>)
    ensures multiset(Entries(SortByBalance(s))) == multiset(Entries(s))
  {
    if s != [] {
      var tail := s[1..];
      var t := SortByBalance(tail);
      assert s == [s[0]] + tail;
      calc {
        multiset(Entries(SortByBalance(s)));
        multiset(Entries(InsertByBalance(s[0], t)));
        { InsertEntries(s[0], t); }
        multiset(Entries(t)) + multiset{Entry(s[0])};
        { SortEntries(tail); }
        multiset(Entries(tail)) + multiset{Entry(s[0])};
        { EntriesCons(s[0], tail); }
        multiset(Entries([s[0]] + tail));
      }
    }
  }

  /** The leaderboard shows each user at most as often as the table holds them. */
  lemma TopWithinUsers(users: seq<UserRow>)
    ensures multiset(TopEntries(SortByBalance(users))) <= multiset(Entries(users))
  {
    var sorted := SortByBalance(users);
    var k := if |sorted| < LeaderboardSize then |sorted| else LeaderboardSize;
    assert sorted == sorted[..k] + sorted[k..];
    EntriesAppend(sorted[..k], sorted[k..]);
    SortEntries(users);
  }

  lemma TopIsTop(users: seq<UserRow>, sorted: seq<UserRow>)
    requires NonIncreasing(sorted) && multiset(sorted) == multiset(users)
    ensures var r := TopEntries(sorted);
            && |r| == (if |users| < LeaderboardSize then |users| else LeaderboardSize)
            && (forall i, j | 0 <= i < j < |r| :: r[i].balance >= r[j].balance)
            && (forall i | 0 <= i < |r| :: exists u :: u in users && r[i] == Entry(u))
            && (forall u | u in users :: Entry(u) in r || u.balance <= r[|r| - 1].balance)
  {
    var r := TopEntries(sorted);
    var k := |r|;
    assert |sorted| == |multiset(sorted)| == |users|;
    assert forall i | 0 <= i < k :: r[i] == Entry(sorted[i]);
    forall i | 0 <= i < k
      ensures exists u :: u in users && r[i] == Entry(u)
    {
      assert sorted[i] in multiset(users);
    }
    forall u | u in users
      ensures Entry(u) in r || u.balance <= r[k - 1].balance
    {
      assert u in multiset(sorted);
      var j :| 0 <= j < |sorted| && sorted[j] == u;
      if j < k {
        assert r[j] == Entry(u);
      } else {
        assert sorted[k - 1].balance >= sorted[j].balance;
      }
    }
  }

  // ---------------------------------------------------------------- settlement query

  /** `SELECT user_id FROM predictions WHERE event_id = ? AND option_id = ?`, in table order. */
  function Winners(preds: seq<Prediction>, eventId: int, optionId: int): (r: seq<int>)
    ensures |r| <= |preds|
  {
    if preds == [] then []
    else
      var p := preds[|preds| - 1];
      Winners(preds[..|preds| - 1], eventId, optionId)
        + (if p.eventId == eventId && p.optionId == optionId then [p.userId] else [])
  }

  /** Number of occurrences of `x` in `s`. */
  function Count(s: seq<int>, x: int): nat {
    if s == [] then 0
    else Count(s[..|s| - 1], x) + (if s[|s| - 1] == x then 1 else 0)
  }

  /** The positions of the predictions `userId` made on option `optionId` of event `eventId`. */
  ghost function WinningStakes(preds: seq<Prediction>, userId: int, eventId: int, optionId: int): set<nat> {
    set i: nat | i < |preds| && preds[i].userId == userId && preds[i].eventId == eventId && preds[i].optionId == optionId
  }

  /** A user occurs in the winners list once per winning prediction they made. */
  lemma {:induction false} WinnersCount(preds: seq<Prediction>, eventId: int, optionId: int, userId: int)
    ensures Count(Winners(preds, eventId, optionId), userId) == |WinningStakes(preds, userId, eventId, optionId)|
  {
    if preds != [] {
      var n := |preds| - 1;
      var p := preds[n];
      WinnersCount(preds[..n], eventId, optionId, userId);
      var w := Winners(preds[..n], eventId, optionId);
      if p.eventId == eventId && p.optionId == optionId {
        CountSnoc(w, p.userId, userId);
      } else {
        assert w + [] == w;
      }
      StakesSnoc(preds, userId, eventId, optionId);
    }
  }

  lemma CountSnoc(s: seq<int>, y: int, x: int)
    ensures Count(s + [y], x) == Count(s, x) + (if y == x then 1 else 0)
  {
    assert (s + [y])[..|s|] == s;
  }

  /** The last prediction adds its own position to the winning stakes when it matches. */
  lemma StakesSnoc(preds: seq<Prediction>, userId: int, eventId: int, optionId: int)
    requires preds != []
    ensures var n := |preds| - 1;
            var p := preds[n];
            |WinningStakes(preds, userId, eventId, optionId)|
            == |WinningStakes(preds[..n], userId, eventId, optionId)|
               + (if p.userId == userId && p.eventId == eventId && p.optionId == optionId then 1 else 0)
  {
    var n := |preds| - 1;
    var p := preds[n];
    var before := WinningStakes(preds[..n], userId, eventId, optionId);
    var after := WinningStakes(preds, userId, eventId, optionId);
    assert forall i | 0 <= i < n :: preds[..n][i] == preds[i];
    if p.userId == userId && p.eventId == eventId && p.optionId == optionId {
      assert after == before + {n};
      assert n !in before;
    } else {
      assert after == before;
    }
  }
}
