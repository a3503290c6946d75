/**
 * The client session of frontend/src/App.jsx: its React state (`activeTab`,
 * `points`, `events`, `history`, `leaderboard`, `loading`), the startup and
 * tab-change effects, the four fetchers and the wager flow `makePrediction`.
 *
 * Each awaited network call is an input with three outcomes: ok with a body,
 * a non-ok status, or a thrown exception. Each fetch completes as one atomic
 * step. The Telegram host's haptic feedback and alerts are appended to the
 * `notices` trace, and every request the client sends to `requests`.
 */
module Session {
  import opened Optional
  import opened Queries

  datatype Tab = Market | Leaderboard | Earn | Friends | Profile

  /** What the Telegram host reports about the user: nothing, or an id and a first name. */
  datatype HostUser = Anonymous | TgUser(id: int, firstName: string)

  /** The outcome of an awaited `fetch`. */
  datatype Fetched<T> = Ok(body: T) | NotOk | Thrown

  /**
   * A `/predict` answer as the client reads it. The server answers rejections
   * with status 200 and an error body, which carries no `new_balance`.
   */
  datatype WagerBody = WagerBody(newBalance: Option<int>)

  datatype Request =
    | GetUser(userId: int, username: string)
    | GetEvents
    | GetHistory(userId: int)
    | GetLeaderboard
    | PostPredict(userId: int, eventId: int, optionId: int)

  /** Host notifications: the 'medium' impact, the 'success' and 'error' notifications, an alert. */
  datatype Notice = ImpactMedium | NotifySuccess | NotifyError | Alert(text: string)

  /** The answers the read endpoints would give to the fetch a tab issues. */
  datatype Replies = Replies(
    events: Fetched<seq<MarketEvent>>,
    history: Fetched<seq<HistoryEntry>>,
    leaderboard: Fetched<seq<LeaderEntry>>)

  /** All observable state of a session. */
  datatype Snapshot = Snapshot(
    activeTab: Tab, points: Option<int>, events: seq<MarketEvent>, history: seq<HistoryEntry>,
    leaderboard: seq<LeaderEntry>, loading: bool, requests: seq<Request>, notices: seq<Notice>)

  /** Smallest balance the client lets a wager go out with. */
  const MinStake := 100
  const DefaultName := "Игрок"
  const InsufficientFunds := "Недостаточно $PRED! 🪙"
  const AcceptedPrefix := "Ставка на \""
  const AcceptedSuffix := "\" принята!"

  /** The success alert; it names the chosen option. */
  function AcceptedAlert(optionName: string): (text: string)
    ensures |text| == |AcceptedPrefix| + |optionName| + |AcceptedSuffix|
    ensures text[|AcceptedPrefix|..|text| - |AcceptedSuffix|] == optionName
  {
    var text := AcceptedPrefix + optionName + AcceptedSuffix;
    assert text[|AcceptedPrefix|..|text| - |AcceptedSuffix|] == optionName;
    text
  }

  /** `tg.initDataUnsafe?.user?.id || 0`. */
  function UserId(host: HostUser): (id: int)
    ensures host.Anonymous? ==> id == 0
    ensures host.TgUser? ==> id == host.id
  {
    match host
    case Anonymous => 0
    case TgUser(id, _) => id
  }

  /** `tg.initDataUnsafe?.user?.first_name || "Игрок"`: never empty. */
  function DisplayName(host: HostUser): (name: string)
    ensures name != []
    ensures host.TgUser? && host.firstName != [] ==> name == host.firstName
    ensures (host.Anonymous? || host.firstName == []) ==> name == DefaultName
  {
    match host
    case Anonymous => DefaultName
    case TgUser(_, firstName) => if firstName != [] then firstName else DefaultName
  }

  /** The fetch the tab-change effect issues for a tab, if any. */
  function TabRequest(tab: Tab, userId: int): (r: Option<Request>)
    ensures r.None? <==> tab == Earn || tab == Friends
    ensures tab == Profile ==> r == Some(GetHistory(userId))
    ensures tab == Market ==> r == Some(GetEvents)
    ensures tab == Leaderboard ==> r == Some(GetLeaderboard)
  {
    match tab
    case Profile => Some(GetHistory(userId))
    case Market => Some(GetEvents)
    case Leaderboard => Some(GetLeaderboard)
    case Earn => None
    case Friends => None
  }

  /** Different tabs never issue the same fetch. */
  lemma TabRequestsDistinct(t1: Tab, t2: Tab, userId: int)
    requires t1 != t2 && TabRequest(t1, userId).Some?
    ensures TabRequest(t1, userId) != TabRequest(t2, userId)
  {
  }

  function Requested(r: Option<Request>): seq<Request> {
    match r
    case None => []
    case Some(req) => [req]
  }

  /** The field a fetcher writes: replaced by the body of an ok answer, otherwise kept. */
  function Refresh<T>(current: T, reply: Fetched<T>): (r: T)
    ensures reply.Ok? ==> r == reply.body
    ensures !reply.Ok? ==> r == current
  {
    match reply
    case Ok(body) => body
    case NotOk => current
    case Thrown => current
  }

  /** The host notices the end of a wager request emits. */
  function WagerNotices(optionName: string, reply: Fetched<WagerBody>): (n: seq<Notice>)
    ensures reply.Ok? ==> n == [NotifySuccess, Alert(AcceptedAlert(optionName))]
    ensures reply.NotOk? ==> n == []
    ensures reply.Thrown? ==> n == [NotifyError]
  {
    match reply
    case Ok(_) => [NotifySuccess, Alert(AcceptedAlert(optionName))]
    case NotOk => []
    case Thrown => [NotifyError]
  }

  /** How the server's `/predict` reply reaches the client: always an ok response. */
  function WagerBodyOf(reply: PredictReply): (body: WagerBody)
    ensures body.newBalance.Some? <==> reply.Accepted?
    ensures reply.Accepted? ==> body.newBalance == Some(reply.newBalance)
  {
    match reply
    case Accepted(newBalance) => WagerBody(Some(newBalance))
    case Rejected(_) => WagerBody(None)
  }

  datatype Badge = Badge(text: string, color: string)

  const WonText := "Выигрыш +200"
  const LostText := "Проигрыш"
  const PendingText := "В игре"

  /** The status badge of a history entry on the profile screen. */
  function ResultBadge(result: Outcome): (b: Badge)
    ensures b.text == WonText <==> result == Won
    ensures b.text == LostText <==> result == Lost
    ensures b.text == PendingText <==> result == Pending
  {
    match result
    case Won => Badge(WonText, "#4caf50")
    case Lost => Badge(LostText, "#ff4b4b")
    case Pending => Badge(PendingText, "#ffc107")
  }

  /**
   * The badge of a history row shows the win exactly when the row's event is
   * finished with the chosen option as winner, and "in play" exactly while the
   * event is not finished.
   */
  lemma BadgeOfRow(row: HistoryRow)
    ensures ResultBadge(Describe(row).result).text == WonText
            <==> row.event.status == Finished && row.event.winner == Some(row.pred.optionId)
    ensures ResultBadge(Describe(row).result).text == PendingText <==> row.event.status != Finished
  {
  }

  class App {
    const host: HostUser
    var activeTab: Tab
    /** None once an ok wager answer without `new_balance` has set it to `undefined`. */
    var points: Option<int>
    var events: seq<MarketEvent>
    var history: seq<HistoryEntry>
    var leaderboard: seq<LeaderEntry>
    var loading: bool
    var requests: seq<Request>
    var notices: seq<Notice>

    function State(): Snapshot
      reads this
    {
      Snapshot(activeTab, points, events, history, leaderboard, loading, requests, notices)
    }

    /** `points < 100`; for an `undefined` balance the comparison is false. */
    predicate Blocked()
      reads this
      ensures Blocked() ==> points.Some?
      ensures points.Some? ==> (Blocked() <==> points.value < MinStake)
    {
      points.Some? && points.value < MinStake
    }

    /** The initial values of the `useState` hooks. */
    constructor (host: HostUser)
      ensures this.host == host
      ensures State() == Snapshot(Market, Some(0), [], [], [], false, [], [])
    {
      this.host := host;
      activeTab := Market;
      points := Some(0);
      events := [];
      history := [];
      leaderboard := [];
      loading := false;
      requests := [];
      notices := [];
    }

    /** `fetchUserData`: asks for the balance, passing the display name; only an ok answer replaces `points`. */
    method FetchUserData(reply: Fetched<UserReply>)
      modifies this
      ensures State() == old(State()).(
                points := if reply.Ok? then Some(reply.body.balance) else old(points),
                requests := old(requests) + [GetUser(UserId(host), DisplayName(host))])
    {
      requests := requests + [GetUser(UserId(host), DisplayName(host))];
      if reply.Ok? {
        points := Some(reply.body.balance);
      }
    }

    /** `fetchEvents`: only an ok answer replaces `events`. */
    method FetchEvents(reply: Fetched<seq<MarketEvent>>)
      modifies this
      ensures State() == old(State()).(
                events := Refresh(old(events), reply),
                requests := old(requests) + [GetEvents])
    {
      requests := requests + [GetEvents];
      if reply.Ok? {
        events := reply.body;
      }
    }

    /** `fetchHistory`: only an ok answer replaces `history`. */
    method FetchHistory(reply: Fetched<seq<HistoryEntry>>)
      modifies this
      ensures State() == old(State()).(
                history := Refresh(old(history), reply),
                requests := old(requests) + [GetHistory(UserId(host))])
    {
      requests := requests + [GetHistory(UserId(host))];
      if reply.Ok? {
        history := reply.body;
      }
    }

    /** `fetchLeaderboard`: only an ok answer replaces `leaderboard`. */
    method FetchLeaderboard(reply: Fetched<seq<LeaderEntry>>)
      modifies this
      ensures State() == old(State()).(
                leaderboard := Refresh(old(leaderboard), reply),
                requests := old(requests) + [GetLeaderboard])
    {
      requests := requests + [GetLeaderboard];
      if reply.Ok? {
        leaderboard := reply.body;
      }
    }

    /** The effect on `activeTab`: the one fetch of the active tab, and nothing else. */
    method TabEffect(replies: Replies)
      modifies this
      ensures State() == old(State()).(
                events := if activeTab == Market then Refresh(old(events), replies.events) else old(events),
                history := if activeTab == Profile then Refresh(old(history), replies.history) else old(history),
                leaderboard := if activeTab == Leaderboard then Refresh(old(leaderboard), replies.leaderboard)
                               else old(leaderboard),
                requests := old(requests) + Requested(TabRequest(activeTab, UserId(host))))
    {
      if activeTab == Profile {
        FetchHistory(replies.history);
      }
      if activeTab == Market {
        FetchEvents(replies.events);
      }
      if activeTab == Leaderboard {
        FetchLeaderboard(replies.leaderboard);
      }
    }

    /**
     * Mounting: the startup effect asks for the user and the events, then the
     * effect on `activeTab` runs for the initial tab. The fetches complete in
     * the order they were issued.
     */
    method Mount(user: Fetched<UserReply>, events0: Fetched<seq<MarketEvent>>, replies: Replies)
      modifies this
      ensures activeTab == old(activeTab) && loading == old(loading) && notices == old(notices)
      ensures requests == old(requests) + [GetUser(UserId(host), DisplayName(host)), GetEvents]
                          + Requested(TabRequest(activeTab, UserId(host)))
      ensures points == if user.Ok? then Some(user.body.balance) else old(points)
      ensures events == if activeTab == Market then Refresh(Refresh(old(events), events0), replies.events)
                        else Refresh(old(events), events0)
      ensures history == if activeTab == Profile then Refresh(old(history), replies.history) else old(history)
      ensures leaderboard == if activeTab == Leaderboard then Refresh(old(leaderboard), replies.leaderboard)
                             else old(leaderboard)
    {
      FetchUserData(user);
      FetchEvents(events0);
      TabEffect(replies);
    }

    /**
     * Pressing a tab button. Choosing the tab already active changes nothing
     * (React skips the effect); any other tab becomes active and its fetch is
     * issued again, however often it was visited before.
     */
    method SelectTab(tab: Tab, replies: Replies)
      modifies this
      ensures old(activeTab) == tab ==> State() == old(State())
      ensures old(activeTab) != tab ==> State() == old(State()).(
                activeTab := tab,
                events := if tab == Market then Refresh(old(events), replies.events) else old(events),
                history := if tab == Profile then Refresh(old(history), replies.history) else old(history),
                leaderboard := if tab == Leaderboard then Refresh(old(leaderboard), replies.leaderboard)
                               else old(leaderboard),
                requests := old(requests) + Requested(TabRequest(tab, UserId(host))))
    {
      if tab != activeTab {
        activeTab := tab;
        TabEffect(replies);
      }
    }

    /**
     * The first half of `makePrediction`, up to the request: the 'medium'
     * impact always fires; with fewer than 100 points an alert is shown and
     * nothing else happens; otherwise `loading` is raised and the wager is sent.
     */
    method BeginWager(eventId: int, optionId: int) returns (sent: bool)
      requires !loading
      modifies this
      ensures sent == !old(Blocked())
      ensures !sent ==> State() == old(State()).(notices := old(notices) + [ImpactMedium, Alert(InsufficientFunds)])
      ensures sent ==> State() == old(State()).(
                loading := true,
                requests := old(requests) + [PostPredict(UserId(host), eventId, optionId)],
                notices := old(notices) + [ImpactMedium])
    {
      notices := notices + [ImpactMedium];
      if Blocked() {
        notices := notices + [Alert(InsufficientFunds)];
        return false;
      }
      loading := true;
      requests := requests + [PostPredict(UserId(host), eventId, optionId)];
      sent := true;
    }

    /**
     * The second half of `makePrediction`, when the request settles: an ok
     * answer replaces `points` by its `new_balance` (absent after a rejection)
     * and brings the success notification and alert; a non-ok answer emits
     * nothing; an exception only the 'error' notification. `loading` is
     * released on every path.
     */
    method CompleteWager(optionName: string, reply: Fetched<WagerBody>)
      requires loading
      modifies this
      ensures State() == old(State()).(
                points := if reply.Ok? then reply.body.newBalance else old(points),
                loading := false,
                notices := old(notices) + WagerNotices(optionName, reply))
    {
      if reply.Ok? {
        points := reply.body.newBalance;
        notices := notices + [NotifySuccess, Alert(AcceptedAlert(optionName))];
      } else if reply.Thrown? {
        notices := notices + [NotifyError];
      }
      loading := false;
    }

    /**
     * `makePrediction` from a wager button, which is only enabled while no
     * wager is in flight. `loading` is false again afterwards on every path.
     */
    method MakePrediction(eventId: int, optionId: int, optionName: string, reply: Fetched<WagerBody>)
      requires !loading
      modifies this
      ensures !loading
      ensures old(Blocked()) ==> State() == old(State()).(notices := old(notices) + [ImpactMedium, Alert(InsufficientFunds)])
      ensures !old(Blocked()) ==> State() == old(State()).(
                points := if reply.Ok? then reply.body.newBalance else old(points),
                requests := old(requests) + [PostPredict(UserId(host), eventId, optionId)],
                notices := old(notices) + [ImpactMedium] + WagerNotices(optionName, reply))
    {
      var sent := BeginWager(eventId, optionId);
      if sent {
        CompleteWager(optionName, reply);
      }
    }
  }
}
