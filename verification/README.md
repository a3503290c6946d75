# Prediction market: ledger, client session and referral link

This project models the three pieces of logic of a Telegram prediction-market
mini-app:

- **The ledger** (`backend/main.py`). It has three tables. `users` holds a
  name, a balance and a referrer per user. `predictions` holds who backed which
  option of which event. `events` holds two named options, a status and a
  winner per event. The endpoints are modelled as follows:
  - `get_user` creates an unknown user with 500 points, or renames a known one.
  - `make_prediction` takes a stake of 100, or rejects a balance below 100.
  - `settle_event` finishes an event and pays 200 for each winning prediction.
  - `get_events`, `get_user_history` and `get_leaderboard` are read-only
    projections.

  Module `Queries` (`queries.dfy`) holds the rows and the projections as
  functions. Module `Backend` (`backend.dfy`) holds the class `Ledger`, whose
  methods are the three mutating endpoints. Each endpoint is one atomic
  transition of the tables. A table is a sequence of rows. `users` and
  `predictions` are in the order the rows were inserted, and `events` is in
  the order the ledger was given. The model does not keep the tables in
  primary-key order.
  The database timestamp of a prediction is replaced by an insertion counter,
  `stamp`.
- **The client session** (`frontend/src/App.jsx`), module `Session`
  (`session.dfy`). Class `App` holds the React state: active tab, points,
  events, history, leaderboard and the `loading` flag. Its methods are:
  - the four fetchers;
  - the startup effect and the tab-change effect;
  - the wager flow `makePrediction`, split into the part before the request
    (`BeginWager`) and the part when the request settles (`CompleteWager`).

  A network call is an input with three outcomes: ok with a body, a non-ok
  status, or a thrown exception. Requests sent and host notifications (haptic
  feedback, alerts) are appended to two traces.
- **The referral link** (`bot/bot.py`), module `Referral` (`referral.dfy`).
  `/start <id>` keeps the second whitespace-separated token when it is all
  digits, and appends `?ref=<id>` to the mini-app link.

Module `Scenarios` (`scenarios.dfy`) has methods that drive the ledger and the
session classes on concrete inputs. Their postconditions state the outcomes.

Some observations about the code follow from the model:
- The ledger answers a rejected wager with an ordinary 200 response whose body
  has no `new_balance`. The client therefore takes its success branch: it shows
  the success notification and alert, and sets `points` to `undefined`. The
  model has `points: Option<int>`, where `None` stands for `undefined`.
  `undefined < 100` is false, so afterwards the client-side balance guard no
  longer stops wagers (`Scenarios.RejectedWagerLosesBalance`).
- `settle_event` has no already-settled guard, so settling an event twice pays
  the winners twice (`Scenarios.SettleTwicePaysTwice`).
- The client never sends `ref_id` to `get_user`. Users created through the app
  therefore get no referrer, whatever link the bot built.
- The 'medium' haptic fires before the balance check, so it fires even when
  the wager is refused for lack of funds.
- A non-ok wager response emits no notification at all. Only a thrown
  exception fires the 'error' haptic.
- A server-side rejection does not leave the client's balance unchanged. It
  clears it, as described above.
- Pressing the tab that is already active fetches nothing, because React does
  not re-run the effect for an unchanged value. Only entering a different tab
  refetches.

## Model

| member | source | states |
|---|---|---|
| `Queries.IndexOfUser` | backend/main.py:111-112 | the lookup by `user_id` finds a row with that id, or reports that no row has it |
| `Queries.StoredBalance` | backend/main.py:135-137 | the balance `make_prediction` checks is the user's stored balance, or 500 when no row has that id |
| `Queries.FindEvent` | backend/main.py:158-162 | the join finds an event row with the prediction's event id, or reports that none exists |
| `Queries.ActiveEvents` | backend/main.py:89-104 | `get_events` returns exactly the views of the events whose status is "active", one entry per active row (as many entries as active rows), each with exactly two options, ids 1 and 2 |
| `Queries.UserRows` | backend/main.py:158-166 | every history row is one of the user's own predictions, joined with the event that has its event id |
| `Queries.UserRowsComplete` | backend/main.py:158-166 | every prediction of the user whose event exists appears among the history rows (inner join, nothing dropped) |
| `Queries.UserRowsNewestFirst` | backend/main.py:163 | history rows come newest first: strictly decreasing insertion stamps |
| `Queries.Describe` | backend/main.py:169-182 | the chosen option is `option_1` when the option id is 1 and `option_2` otherwise; the result is "pending" iff the event is not finished, "won" iff it is finished with the chosen option as winner, "lost" otherwise |
| `Queries.GetUserHistory` | backend/main.py:154-183 | the history has exactly as many entries as the user has predictions on existing events, and every entry labels one of the user's own predictions joined with the event of its id |
| `Queries.HistoryShowsEveryPrediction` | backend/main.py:154-183 | every prediction of the user on an existing event shows up in `get_user_history`, labelled from its event |
| `Queries.InsertByBalance` | backend/main.py:211 | inserting into a list ordered by descending balance keeps it ordered and adds exactly that row |
| `Queries.SortByBalance` | backend/main.py:211 | `ORDER BY balance DESC` yields a permutation of the users in non-increasing balance order |
| `Queries.GetLeaderboard` | backend/main.py:206-215 | the leaderboard has min(10, number of users) entries, in non-increasing balance order; its entries are a sub-multiset of the users' (name, balance) pairs, so no user is shown more often than they occur; every user left out has no more than the last entry shown |
| `Queries.Winners` | backend/main.py:195-196 | the winners query yields at most one user id per prediction |
| `Queries.WinnersCount` | backend/main.py:195-199 | a user occurs in the winners list exactly as often as they have predictions on the winning option of the event |
| `Backend.Ledger.constructor` | backend/main.py:49-74 | the ledger starts with empty `users` and `predictions` tables and satisfies the table invariant |
| `Backend.Ledger.GetUser` | backend/main.py:107-127 | an unknown user is appended with balance 500 and the given referrer, and 500 is returned; a known user only gets the name overwritten and the stored balance is returned; the name defaults to "User"; no other table changes |
| `Backend.Ledger.MakePrediction` | backend/main.py:130-147 | a stored balance below 100 gives the "Insufficient balance" error and changes nothing; otherwise the user's row, if any, drops by exactly 100, one prediction (user, event, option) is appended and `new_balance` = old − 100 ≥ 0; an unknown user counts as 500 and gets no row; neither event nor option is checked; balances stay non-negative |
| `Backend.Ledger.SettleEvent` | backend/main.py:186-203 | the event rows with that id become "finished" with the winner; every user gains 200 × their number of predictions on the winning option, and nothing else changes; the reply counts the winning predictions; there is no already-settled guard |
| `Session.AcceptedAlert` | frontend/src/App.jsx:98 | the success alert names the chosen option, which can be read back out of it |
| `Session.UserId` | frontend/src/App.jsx:32 | the user id is the host's, or 0 when the host provides no user |
| `Session.DisplayName` | frontend/src/App.jsx:33 | the name is the host's first name, or "Игрок" when it is missing or empty; never empty |
| `Session.TabRequest` | frontend/src/App.jsx:23-27 | the profile tab fetches the user's history, the market tab the events, the leaderboard tab the leaderboard; earn and friends fetch nothing |
| `Session.Refresh` | frontend/src/App.jsx:37-40 | a fetcher's field takes the body of an ok answer; a non-ok answer or an exception keeps the old value |
| `Session.TabRequestsDistinct` | frontend/src/App.jsx:24-26 | two different tabs never issue the same fetch |
| `Session.WagerNotices` | frontend/src/App.jsx:94-101 | an ok answer brings the success haptic and the alert naming the option; a non-ok answer brings nothing; an exception brings only the 'error' haptic |
| `Session.WagerBodyOf` | backend/main.py:139-147 | the body the client reads has a `new_balance` exactly when the ledger accepted the stake, and then it is the ledger's new balance |
| `Session.ResultBadge` | frontend/src/App.jsx:187-196 | the badge shows the win text iff the result is "won", the loss text iff "lost", and "in play" iff "pending" |
| `Session.BadgeOfRow` | frontend/src/App.jsx:187-196 | the profile shows a win for a history row iff its event is finished with the chosen option as winner, and "in play" iff the event is not finished |
| `Session.App.Blocked` | frontend/src/App.jsx:77 | the wager guard blocks only a defined balance below 100; an undefined balance is never blocked |
| `Session.App.constructor` | frontend/src/App.jsx:7-12 | the session starts on the market tab with 0 points, empty lists, not loading, nothing requested or notified |
| `Session.App.FetchUserData` | frontend/src/App.jsx:31-42 | asks for the user with the id and display name; only an ok answer replaces `points`; nothing else changes |
| `Session.App.FetchEvents` | frontend/src/App.jsx:44-52 | only an ok answer replaces `events`; a failure keeps the old list; nothing else changes |
| `Session.App.FetchHistory` | frontend/src/App.jsx:54-63 | asks for the user's history; only an ok answer replaces `history`; nothing else changes |
| `Session.App.FetchLeaderboard` | frontend/src/App.jsx:65-73 | only an ok answer replaces `leaderboard`; nothing else changes |
| `Session.App.TabEffect` | frontend/src/App.jsx:23-27 | the effect issues exactly the fetch `TabRequest` names for the active tab and writes only that field |
| `Session.App.Mount` | frontend/src/App.jsx:15-27 | mounting requests the user and the events, then the active tab's fetch, so on the initial market tab the events are fetched twice |
| `Session.App.SelectTab` | frontend/src/App.jsx:215-231 | entering a different tab makes it active and issues its one fetch again, however often it was visited; pressing the active tab changes nothing |
| `Session.App.BeginWager` | frontend/src/App.jsx:75-92 | the 'medium' haptic always fires first; with points below 100 only the insufficient-funds alert follows (no request, `points` and `loading` unchanged); otherwise `loading` becomes true and the wager request is sent |
| `Session.App.CompleteWager` | frontend/src/App.jsx:94-104 | an ok answer replaces `points` by the body's `new_balance` (absent after a rejection), not old − 100; a non-ok answer or an exception leaves `points` unchanged; `loading` is false afterwards on every path |
| `Session.App.MakePrediction` | frontend/src/App.jsx:75-105 | the whole wager flow, callable only while no wager is in flight (buttons are disabled while loading); `loading` is false afterwards on every path |
| `Referral.TokenLength` | bot/bot.py:17 | a token runs up to the first whitespace character |
| `Referral.Split` | bot/bot.py:17 | `split()` yields non-empty tokens without whitespace; which tokens is stated by `Referral.SplitSkipsSpaces` and `Referral.SplitTakesToken` |
| `Referral.SplitJoin` | bot/bot.py:17 | splitting tokens joined by spaces gives back exactly those tokens |
| `Referral.SplitSkipsSpaces` | bot/bot.py:17 | whitespace of any kind in front of a text adds no tokens |
| `Referral.SplitTakesToken` | bot/bot.py:17 | a token ended by whitespace or by the end of the text is the first token, and splitting continues after it |
| `Referral.ParseRef` | bot/bot.py:17-18 | there is a referrer id exactly when the text has a second token consisting of digits, and then it is that token |
| `Referral.RefOfStartCommand` | bot/bot.py:17-18 | for `/start <arg> ...`, with any whitespace before, between and after the tokens, the referrer id is `arg` itself, as a string, when it is all digits, and none otherwise; later text is ignored |
| `Referral.NoRefWithoutArgument` | bot/bot.py:17-18 | a bare `/start`, an empty text or a text of whitespace only, with any whitespace around it, yields no referrer id |
| `Referral.LaunchUrl` | bot/bot.py:21-23 | the link always starts with the base address, and the referrer id can be read back from it exactly when it was a non-empty string |
| `Referral.LaunchUrlCarriesRef` | bot/bot.py:21-23 | without a referrer id the link is the base address; with one it is base + "?ref=" + id, and the id can be read back from the link |
| `Scenarios.AcceptedWager` | frontend/src/App.jsx:94-98 | with 500 points, a wager on "Red" answered with 400 leaves 400 points, and the last alert names "Red" |
| `Scenarios.InsufficientWager` | frontend/src/App.jsx:76-80 | with 50 points no wager request goes out, the points stay 50, and only the haptic and the insufficient-funds alert are shown |
| `Scenarios.LeaderboardFetchFails` | frontend/src/App.jsx:65-73 | a failed leaderboard fetch on first load leaves the leaderboard empty |
| `Scenarios.StartupRequests` | frontend/src/App.jsx:15-27 | an anonymous session's mount requests user 0 named "Игрок", then the events twice |
| `Scenarios.RevisitRefetches` | frontend/src/App.jsx:23-27 | going back to the profile tab fetches the history again; pressing the active tab fetches nothing |
| `Scenarios.RejectedWagerLosesBalance` | frontend/src/App.jsx:94-98 | a ledger rejection reaches the client as an ok answer: success is announced, `points` becomes undefined, and the next wager passes the guard |
| `Scenarios.SettleTwicePaysTwice` | backend/main.py:192-199 | settling the same event twice pays a winning prediction twice: 500 − 100 + 2 × 200, and both replies count one winner |
| `Scenarios.WonAfterSettlement` | backend/main.py:169-182 | once the event is settled on the chosen option, the history shows the prediction as won, with the event title and option name |

## Left out

- Framework and database plumbing is not modelled. This covers the SQLAlchemy
  model, the admin views, CORS, routing, the request model, the sqlite
  connections and `init_db`. Events are created through the admin views, so
  the ledger is constructed with its event rows.
- `Backend.Ledger.MakePrediction`: each endpoint is modelled as one atomic
  step. In the source, `make_prediction` reads the balance and later writes an
  absolute new balance; the sqlite transaction only starts at the UPDATE and
  FastAPI runs the endpoint in a thread pool. Two concurrent requests of one
  user can both read 500, both write 400 and both insert a prediction, so one
  stake is never charged. The model does not capture this race, nor the
  integrity error two concurrent `get_user` inserts of a new id can raise.
- The `except Exception` path of `make_prediction` is left out. It turns any
  database failure into an error reply and changes nothing.
- The `home` endpoint is left out.
- `CURRENT_TIMESTAMP` is replaced by an insertion counter. Predictions made in
  the same second are unordered in the source; in the model the later
  insertion always sorts first.
- `Queries.ActiveEvents`: `get_events` has no `ORDER BY`. The model lists
  the active events in the order of the `events` sequence, which need not be
  primary-key order, and no contract states an order among them.
- `Queries.GetLeaderboard`: users with equal balances appear in the order the
  insertion sort gives them. SQLite leaves that order unspecified, so the
  contract states no order among ties.
- `Queries.Winners`: its own contract only bounds the length. Its content is
  stated through `Queries.WinnersCount`.
- Integer width is not modelled. SQLite integers are 64-bit and JavaScript
  numbers are doubles; the model uses unbounded integers.
- HTTP, JSON parsing and URL encoding of the username in the user request are
  not modelled. The Telegram WebApp calls (`ready`, `expand`,
  `openTelegramLink`) are also left out. Haptics and alerts appear only as
  entries of the `notices` trace.
- Overlapping fetches from quick tab switches are not modelled, and neither
  is the missing cancellation. Each fetch completes as one atomic step, and
  `Mount` completes its fetches in the order it issues them.
- Rendering and styles are not modelled. The only exception is the history
  badge labelling (`Session.ResultBadge`).
- The aiogram bot set-up, the reply message, the keyboard markup and polling
  are not modelled.
- `Referral.IsDigit`: Python's `str.isdigit` also accepts non-ASCII digit
  characters. The model accepts only '0' to '9'.
- `frontend/vite.config.js` is build configuration and is not part of this
  model.
