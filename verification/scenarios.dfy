/**
 * Methods that drive the ledger and the client session on concrete inputs;
 * their postconditions state what the specifications of both imply for those
 * sequences of steps.
 */
module Scenarios {
  import opened Optional
  import opened Queries
  import opened Backend
  import opened Session

  const Match := EventRow(1, "Red vs Blue", "Red", "Blue", Active, None)

  /** A balance of 500 and a wager on "Red" answered with 400: the balance becomes 400 and the alert names "Red". */
  method AcceptedWager() returns (points: Option<int>, last: Notice)
    ensures points == Some(400)
    ensures last == Alert(AcceptedAlert("Red"))
  {
    var s := new App(TgUser(7, "Ann"));
    s.FetchUserData(Ok(UserReply(7, 500)));
    s.MakePrediction(1, 1, "Red", Ok(WagerBody(Some(400))));
    points := s.points;
    last := s.notices[|s.notices| - 1];
  }

  /** A balance of 50: no request goes out, the balance stays 50 and the insufficient-funds alert is shown. */
  method InsufficientWager() returns (points: Option<int>, requests: seq<Request>, notices: seq<Notice>)
    ensures points == Some(50)
    ensures requests == [GetUser(7, "Ann")]
    ensures notices == [ImpactMedium, Alert(InsufficientFunds)]
  {
    var s := new App(TgUser(7, "Ann"));
    s.FetchUserData(Ok(UserReply(7, 50)));
    s.MakePrediction(1, 2, "Blue", Ok(WagerBody(Some(0))));
    points, requests, notices := s.points, s.requests, s.notices;
  }

  /** A failed leaderboard fetch on first load leaves the leaderboard empty. */
  method LeaderboardFetchFails() returns (board: seq<LeaderEntry>, requests: seq<Request>)
    ensures board == []
    ensures requests == [GetLeaderboard]
  {
    var s := new App(Anonymous);
    s.SelectTab(Leaderboard, Replies(NotOk, NotOk, Thrown));
    board, requests := s.leaderboard, s.requests;
  }

  /** At mount the events are fetched twice, and an anonymous user is asked for as user 0 named "Игрок". */
  method StartupRequests() returns (requests: seq<Request>)
    ensures requests == [GetUser(0, DefaultName), GetEvents, GetEvents]
  {
    var s := new App(Anonymous);
    s.Mount(Thrown, Thrown, Replies(Thrown, Thrown, Thrown));
    requests := s.requests;
  }

  /** Leaving a tab and coming back fetches its data again; re-pressing the active tab fetches nothing. */
  method RevisitRefetches() returns (requests: seq<Request>)
    ensures requests == [GetHistory(7), GetEvents, GetHistory(7)]
  {
    var s := new App(TgUser(7, "Ann"));
    var none := Replies(NotOk, NotOk, NotOk);
    s.SelectTab(Profile, none);
    s.SelectTab(Profile, none);
    s.SelectTab(Market, none);
    s.SelectTab(Earn, none);
    s.SelectTab(Friends, none);
    s.SelectTab(Profile, none);
    requests := s.requests;
  }

  /**
   * The session shows 500 while the ledger's balance has already been spent
   * from elsewhere. The ledger rejects the wager, yet the answer is an ok
   * response: the client announces success and its balance becomes absent,
   * after which the insufficient-funds guard no longer stops a wager.
   */
  method RejectedWagerLosesBalance() returns (points: Option<int>, announced: bool, nextSent: bool)
    ensures points == None
    ensures announced
    ensures nextSent
  {
    var ledger := new Ledger([Match]);
    var s := new App(TgUser(7, "Ann"));
    var user := ledger.GetUser(7, Some("Ann"), None);
    s.FetchUserData(Ok(user));
    assert s.points == Some(500);
    var i := 0;
    while i < 5
      invariant 0 <= i <= 5
      invariant ledger.Valid() && |ledger.users| == 1 && ledger.users[0].userId == 7
      invariant ledger.users[0].balance == 500 - 100 * i
      invariant s.points == Some(500) && !s.loading
    {
      var _ := ledger.MakePrediction(7, 1, 2);
      i := i + 1;
    }
    var sent := s.BeginWager(1, 1);
    var reply := ledger.MakePrediction(7, 1, 1);
    assert reply == Rejected(InsufficientBalance);
    s.CompleteWager("Red", Ok(WagerBodyOf(reply)));
    points := s.points;
    announced := s.notices[|s.notices| - 1] == Alert(AcceptedAlert("Red"));
    nextSent := s.BeginWager(1, 2);
  }

  /** One winning wager, then the event settled twice: the winner is paid twice. */
  method SettleTwicePaysTwice() returns (paid1: nat, paid2: nat, balance: int)
    ensures paid1 == 1 && paid2 == 1
    ensures balance == StartingBalance - Stake + 2 * Payout
  {
    var ledger := new Ledger([Match]);
    var _ := ledger.GetUser(7, Some("Ann"), None);
    assert ledger.users == [UserRow(7, "Ann", StartingBalance, None)];
    var _ := ledger.MakePrediction(7, 1, 1);
    assert ledger.users == [UserRow(7, "Ann", StartingBalance - Stake, None)];
    assert ledger.predictions == [Prediction(7, 1, 1, 0)];
    WinningStakesOfOne(Prediction(7, 1, 1, 0));
    paid1 := ledger.SettleEvent(1, 1);
    assert ledger.users[0].balance == StartingBalance - Stake + Payout;
    paid2 := ledger.SettleEvent(1, 1);
    balance := ledger.users[0].balance;
  }

  /** A table of one prediction holds one winning stake for its own user, event and option. */
  lemma WinningStakesOfOne(p: Prediction)
    ensures WinningStakes([p], p.userId, p.eventId, p.optionId) == {0}
    ensures Winners([p], p.eventId, p.optionId) == [p.userId]
  {
    assert [p][..0] == [];
  }

  /** After the event is settled on the chosen option, the history shows the prediction as won. */
  method WonAfterSettlement() returns (shown: seq<HistoryEntry>)
    ensures shown == [HistoryEntry("Red vs Blue", "Red", Won)]
  {
    var ledger := new Ledger([Match]);
    var _ := ledger.MakePrediction(7, 1, 1);
    assert ledger.predictions == [Prediction(7, 1, 1, 0)];
    var _ := ledger.SettleEvent(1, 1);
    var settled := Match.(status := Finished, winner := Some(1));
    assert ledger.events == [settled];
    assert FindEvent([settled], 1) == Some(settled);
    assert [Prediction(7, 1, 1, 0)][..0] == [];
    assert UserRows(ledger.predictions, ledger.events, 7) == [HistoryRow(Prediction(7, 1, 1, 0), settled)];
    shown := GetUserHistory(ledger.predictions, ledger.events, 7);
  }
}
