/**
 * The endpoints of backend/main.py that change the tables, modelled on one
 * in-memory ledger: `get_user` (create or update a user), `make_prediction`
 * (take the stake of 100 or reject) and `settle_event` (finish an event and pay
 * 200 for every winning prediction). Each endpoint is one atomic transition of
 * the `users`, `predictions` and `events` tables; the read-only endpoints are
 * the functions of module Queries applied to these tables.
 */
module Backend {
  import opened Optional
  import opened Queries

  /** The name `get_user` stores when the request carries no `username`. */
  const DefaultUsername := "User"

  class Ledger {
    var users: seq<UserRow>
    var predictions: seq<Prediction>
    var events: seq<EventRow>
    /** The stamp the next inserted prediction receives. */
    var clock: nat

    /**
     * Primary keys are unique, no balance is negative, and the predictions
     * are stamped in insertion order with stamps below `clock`.
     */
    ghost predicate Valid()
      reads this
    {
      UniqueUserIds(users)
      && (forall i | 0 <= i < |users| :: users[i].balance >= 0)
      && UniqueEventIds(events)
      && StampsIncreasing(predictions)
      && (forall i | 0 <= i < |predictions| :: predictions[i].stamp < clock)
    }

    /** Empty `users` and `predictions`; the events are those created through the admin views. */
    constructor (events: seq<EventRow>)
      requires UniqueEventIds(events)
      ensures Valid()
      ensures users == [] && predictions == [] && this.events == events && clock == 0
    {
      users := [];
      predictions := [];
      this.events := events;
      clock := 0;
    }

    /**
     * `get_user`: an unknown user is inserted with balance 500 and the given
     * referrer; a known user only has the name overwritten. The reply carries
     * the stored balance.
     */
    method GetUser(userId: int, username: Option<string>, refId: Option<int>) returns (reply: UserReply)
      requires Valid()
      modifies this
      ensures Valid()
      ensures predictions == old(predictions) && events == old(events) && clock == old(clock)
      ensures reply.userId == userId
      ensures match IndexOfUser(old(users), userId)
        case None =>
          users == old(users) + [UserRow(userId, username.GetOr(DefaultUsername), StartingBalance, refId)]
          && reply.balance == StartingBalance
        case Some(i) =>
          users == old(users)[i := old(users)[i].(username := username.GetOr(DefaultUsername))]
          && reply.balance == old(users)[i].balance
    {
      var name := username.GetOr(DefaultUsername);
      match IndexOfUser(users, userId)
      case None =>
        users := users + [UserRow(userId, name, StartingBalance, refId)];
        reply := UserReply(userId, StartingBalance);
      case Some(i) =>
        users := users[i := users[i].(username := name)];
        reply := UserReply(userId, users[i].balance);
    }

    /**
     * `make_prediction`: with a balance below 100 the request is rejected and
     * nothing changes. Otherwise the user's row loses exactly 100, one
     * prediction is appended and the reply carries the new balance. Neither
     * the user nor the event nor the option is checked: an unknown user counts
     * as having 500, gets the prediction recorded and no row.
     */
    method MakePrediction(userId: int, eventId: int, optionId: int) returns (reply: PredictReply)
      requires Valid()
      modifies this
      ensures Valid()
      ensures events == old(events)
      ensures StoredBalance(old(users), userId) < Stake ==>
                reply == Rejected(InsufficientBalance)
                && users == old(users) && predictions == old(predictions) && clock == old(clock)
      ensures StoredBalance(old(users), userId) >= Stake ==>
                reply == Accepted(StoredBalance(old(users), userId) - Stake)
                && reply.newBalance >= 0
                && predictions == old(predictions) + [Prediction(userId, eventId, optionId, old(clock))]
                && clock == old(clock) + 1
                && |users| == |old(users)|
                && forall j | 0 <= j < |users| ::
                     users[j] == if old(users)[j].userId == userId
                                 then old(users)[j].(balance := reply.newBalance)
                                 else old(users)[j]
    {
      var balance := StoredBalance(users, userId);
      if balance < Stake {
        reply := Rejected(InsufficientBalance);
        return;
      }
      var newBalance := balance - Stake;
      match IndexOfUser(users, userId) {
        case Some(i) =>
          users := users[i := users[i].(balance := newBalance)];
        case None =>
      }
      predictions := predictions + [Prediction(userId, eventId, optionId, clock)];
      clock := clock + 1;
      reply := Accepted(newBalance);
    }

    /**
     * `settle_event`: the event is marked finished with its winner, and every
     * user is credited 200 for each of their predictions on the winning
     * option; nobody else changes. The reply is the number of winning
     * predictions. Nothing stops a second settlement from paying again.
     */
    method SettleEvent(eventId: int, winnerId: int) returns (winnersPaid: nat)
      requires Valid()
      modifies this
      ensures Valid()
      ensures predictions == old(predictions) && clock == old(clock)
      ensures |events| == |old(events)|
      ensures forall j | 0 <= j < |events| ::
                events[j] == if old(events)[j].id == eventId
                             then old(events)[j].(status := Finished, winner := Some(winnerId))
                             else old(events)[j]
      ensures |users| == |old(users)|
      ensures forall j | 0 <= j < |users| ::
                users[j] == old(users)[j].(balance := old(users)[j].balance
                              + Payout * |WinningStakes(old(predictions), old(users)[j].userId, eventId, winnerId)|)
      ensures winnersPaid == |Winners(old(predictions), eventId, winnerId)|
    {
      ghost var users0 := users;
      var rows := events;
      events := seq(|rows|, j requires 0 <= j < |rows| =>
                      if rows[j].id == eventId then rows[j].(status := Finished, winner := Some(winnerId))
                      else rows[j]);
      ghost var settled := events;
      var winners := Winners(predictions, eventId, winnerId);
      var i := 0;
      while i < |winners|
        invariant 0 <= i <= |winners|
        invariant predictions == old(predictions) && clock == old(clock) && events == settled
        invariant |users| == |users0|
        invariant forall j | 0 <= j < |users| ::
                    users[j] == users0[j].(balance := users0[j].balance + Payout * Count(winners[..i], users0[j].userId))
      {
        var w := winners[i];
        assert winners[..i + 1][..i] == winners[..i];
        match IndexOfUser(users, w) {
          case Some(k) =>
            users := users[k := users[k].(balance := users[k].balance + Payout)];
          case None =>
        }
        i := i + 1;
      }
      assert winners[..i] == winners;
      forall j | 0 <= j < |users0|
        ensures Count(winners, users0[j].userId) == |WinningStakes(predictions, users0[j].userId, eventId, winnerId)|
      {
        WinnersCount(predictions, eventId, winnerId, users0[j].userId);
      }
      winnersPaid := |winners|;
    }
  }
}
