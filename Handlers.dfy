/** The bot's message handlers as transitions of the users table. The answer
    of the channel-membership lookup is an input: either the member status
    Telegram reports or a failed lookup. */
module Handlers {
  import opened Wrappers
  import opened Store

  const AdminId: int := 7858117466

  /** The answer of the membership lookup for the bot's channel. */
  datatype Lookup = Status(status: string) | LookupError

  /** The statuses that count as subscribed. */
  const SubscribedStatuses: seq<string> := ["member", "administrator", "creator"]

  /** `is_subscribed`: exactly the three statuses are accepted; every other
      status and every failed lookup counts as not subscribed. */
  function IsSubscribed(l: Lookup): (b: bool)
    ensures b <==> l == Status("member") || l == Status("administrator") || l == Status("creator")
    ensures l.LookupError? ==> !b
    ensures l in {Status("left"), Status("kicked"), Status("restricted")} ==> !b
  {
    l.Status? && l.status in SubscribedStatuses
  }

  /** What the bot sends back, without its wording or keyboard objects. */
  datatype Reply =
    | MainMenu                  // greeting with the "HDP LC" / "Omon School" keyboard
    | SubscribePrompt           // ask to subscribe, with the subscribe / check keyboard
    | SubscribeFirst            // "subscribe first", reply keyboard removed
    | FormLink(col: Column)     // the form link of the clicked school
    | CallbackThanks            // callback answer, menu message, old message deleted
    | CallbackNotYet            // callback alert: not subscribed yet
    | StatsReport(stats: Stats) // the admin statistics message
    | NotAdmin                  // refusal of /admin

  /** The new table and the replies a handler produces. */
  datatype Effect = Effect(table: Table, replies: seq<Reply>)

  /** The incoming updates the dispatcher routes to a handler. */
  datatype Update =
    | StartCommand(user: int, sub: Lookup)
    | CheckSubCallback(user: int, sub: Lookup)
    | MenuButton(user: int, col: Column, sub: Lookup, recheck: Lookup)
    | AdminCommand(user: int)

  /** The text filters of the two button handlers. */
  function ButtonColumn(text: string): (c: Option<Column>)
    ensures c == Some(Hdp) <==> text == "HDP LC"
    ensures c == Some(Omon) <==> text == "Omon School"
  {
    if text == "HDP LC" then Some(Hdp)
    else if text == "Omon School" then Some(Omon)
    else None
  }

  /** A plain text message reaches a menu handler only through its text
      filter; any other text has no handler. */
  function TextUpdate(user: int, text: string, sub: Lookup, recheck: Lookup): (u: Option<Update>)
    ensures u.Some? <==> text == "HDP LC" || text == "Omon School"
    ensures u.Some? ==>
      && u.value.MenuButton? && u.value.user == user
      && u.value.sub == sub && u.value.recheck == recheck
      && (u.value.col == Hdp <==> text == "HDP LC")
  {
    match ButtonColumn(text)
    case Some(c) => Some(MenuButton(user, c, sub, recheck))
    case None => None
  }

  /** `send_welcome`: register the user, then greet or ask to subscribe. */
  function Welcome(t: Table, user: int, sub: Lookup): (e: Effect)
    ensures e.table.Keys == t.Keys + {user}
    ensures forall u :: u in t ==> e.table[u] == t[u]
    ensures user !in t ==> e.table[user] == NewRow
    ensures |e.replies| == 1
    ensures e.replies[0] == MainMenu <==> IsSubscribed(sub)
    ensures e.replies[0] == SubscribePrompt <==> !IsSubscribed(sub)
  {
    Effect(AddUser(t, user), [if IsSubscribed(sub) then MainMenu else SubscribePrompt])
  }

  /** `check_subscription_callback`: answers only, the table is untouched. */
  function CheckSub(t: Table, sub: Lookup): (e: Effect)
    ensures e.table == t
    ensures e.replies == [CallbackThanks] <==> IsSubscribed(sub)
    ensures e.replies == [CallbackNotYet] <==> !IsSubscribed(sub)
  {
    Effect(t, if IsSubscribed(sub) then [CallbackThanks] else [CallbackNotYet])
  }

  /** `hdp_handler` / `omon_handler`: count the click of a subscribed user;
      send anyone else back through `send_welcome`, which looks the
      membership up again (`recheck`). */
  function Click(t: Table, user: int, c: Column, sub: Lookup, recheck: Lookup): (e: Effect)
    ensures e.table.Keys == t.Keys + (if IsSubscribed(sub) then {} else {user})
    ensures IsSubscribed(sub) ==> e.table == Increment(t, user, c) && e.replies == [FormLink(c)]
    ensures !IsSubscribed(sub) ==>
      && (forall u :: u in t ==> e.table[u] == t[u])
      && (user !in t ==> e.table[user] == NewRow)
      && |e.replies| == 2 && e.replies[0] == SubscribeFirst
      && (e.replies[1] == MainMenu <==> IsSubscribed(recheck))
      && (e.replies[1] == SubscribePrompt <==> !IsSubscribed(recheck))
  {
    if IsSubscribed(sub) then Effect(Increment(t, user, c), [FormLink(c)])
    else
      var w := Welcome(t, user, recheck);
      Effect(w.table, [SubscribeFirst] + w.replies)
  }

  /** `admin_panel`: the statistics for the admin, a refusal for anyone else. */
  function Admin(t: Table, sender: int): (e: Effect)
    ensures e.table == t
    ensures sender == AdminId ==>
      e.replies == [StatsReport(Stats(|t|, SumColumn(t, Hdp), SumColumn(t, Omon)))]
    ensures sender != AdminId ==> e.replies == [NotAdmin]
  {
    Effect(t, if sender == AdminId then [StatsReport(GetStats(t))] else [NotAdmin])
  }

  /** The dispatcher. Each handler answers, and writes the table at most
      once: one `add_user` or one `increment_counter`, or neither. */
  function Step(t: Table, u: Update): (e: Effect)
    ensures |e.replies| >= 1
    ensures || e.table == t
            || (exists user :: e.table == AddUser(t, user))
            || (exists user, c :: e.table == Increment(t, user, c))
  {
    match u
    case StartCommand(user, sub) => Welcome(t, user, sub)
    case CheckSubCallback(_, sub) => CheckSub(t, sub)
    case MenuButton(user, c, sub, recheck) => Click(t, user, c, sub, recheck)
    case AdminCommand(sender) => Admin(t, sender)
  }

  /** A second `/start` by the same user changes nothing and is answered
      the same way; `Welcome` states the first one. */
  lemma StartIdempotent(t: Table, user: int, sub: Lookup)
    ensures var e := Step(t, StartCommand(user, sub));
      Step(e.table, StartCommand(user, sub)) == e
  {
  }

  /** A menu click by a subscribed user increments exactly that user's
      chosen counter (if the user has a row); an unsubscribed user changes no
      counter, is registered, and gets the welcome after the warning. */
  lemma ClickGating(t: Table, user: int, c: Column, sub: Lookup, recheck: Lookup)
    ensures var e := Step(t, MenuButton(user, c, sub, recheck));
      IsSubscribed(sub) ==>
        && e.table == Increment(t, user, c)
        && Clicks(GetStats(e.table), c) == Clicks(GetStats(t), c) + (if user in t then 1 else 0)
        && e.replies == [FormLink(c)]
    ensures var e := Step(t, MenuButton(user, c, sub, recheck));
      !IsSubscribed(sub) ==>
        && e.table == AddUser(t, user)
        && (forall u :: u in t ==> e.table[u] == t[u])
        && (forall d :: Clicks(GetStats(e.table), d) == Clicks(GetStats(t), d))
        && e.replies == [SubscribeFirst] + Welcome(t, user, recheck).replies
  {
    IncrementStats(t, user, c);
    AddUserStats(t, user);
  }

  /** The `/admin` reply is the `get_stats` answer exactly when the sender is
      the admin: `Admin`'s contract, at the dispatcher and in terms of
      `GetStats`. */
  lemma AdminGating(t: Table, sender: int)
    ensures Step(t, AdminCommand(sender)).replies == [StatsReport(GetStats(t))] <==> sender == AdminId
  {
  }

  /** No update removes a user or lowers a counter. */
  lemma StepMonotone(t: Table, u: Update)
    ensures var t' := Step(t, u).table;
      t.Keys <= t'.Keys && forall id, c :: id in t ==> Get(t[id], c) <= Get(t'[id], c)
  {
  }

  /** The user id `add_user` receives while handling an update, if any. */
  function Registers(u: Update): Option<int>
  {
    match u
    case StartCommand(user, _) => Some(user)
    case MenuButton(user, _, sub, _) => if IsSubscribed(sub) then None else Some(user)
    case _ => None
  }

  function RegisteredIds(us: seq<Update>): set<int>
    decreases |us|
  {
    if us == [] then {}
    else (match Registers(us[0]) case Some(id) => {id} case None => {}) + RegisteredIds(us[1..])
  }

  /** Handling the updates in order. */
  function Run(t: Table, us: seq<Update>): Table
    decreases |us|
  {
    if us == [] then t else Run(Step(t, us[0]).table, us[1..])
  }

  lemma StepKeys(t: Table, u: Update)
    ensures Step(t, u).table.Keys == t.Keys + (match Registers(u) case Some(id) => {id} case None => {})
  {
  }

  /** The users in the table are the ones there before plus every id ever
      passed to `add_user`. */
  lemma {:induction false} RunKeys(t: Table, us: seq<Update>)
    ensures Run(t, us).Keys == t.Keys + RegisteredIds(us)
    decreases |us|
  {
    if us != [] {
      StepKeys(t, us[0]);
      RunKeys(Step(t, us[0]).table, us[1..]);
    }
  }

  /** Since `user_id` is the primary key, starting from an empty table the
      user count equals the number of distinct ids passed to `add_user`. */
  lemma UserCountIsDistinctRegistrations(us: seq<Update>)
    ensures GetStats(Run(map[], us)).users == |RegisteredIds(us)|
  {
    RunKeys(map[], us);
  }

  /** A click that is counted: subscribed, on that column, by a user with a row. */
  predicate Counted(t: Table, u: Update, c: Column)
  {
    u.MenuButton? && u.col == c && IsSubscribed(u.sub) && u.user in t
  }

  function CountedClicks(t: Table, us: seq<Update>, c: Column): nat
    decreases |us|
  {
    if us == [] then 0
    else (if Counted(t, us[0], c) then 1 else 0) + CountedClicks(Step(t, us[0]).table, us[1..], c)
  }

  /** One update raises a column total by one exactly when it is a counted
      click on that column. */
  lemma StepClicks(t: Table, u: Update, c: Column)
    ensures SumColumn(Step(t, u).table, c) == SumColumn(t, c) + (if Counted(t, u, c) then 1 else 0)
  {
    match u
    case StartCommand(user, _) =>
      AddUserStats(t, user);
    case MenuButton(user, col, sub, _) =>
      if IsSubscribed(sub) {
        IncrementStats(t, user, col);
        var t' := Increment(t, user, col);
        assert Clicks(GetStats(t'), c) == Clicks(GetStats(t), c) + (if Counted(t, u, c) then 1 else 0);
      } else {
        AddUserStats(t, user);
      }
    case _ =>
  }

  /** A column total grows by exactly the number of counted clicks on it. */
  lemma {:induction false} RunClicks(t: Table, us: seq<Update>, c: Column)
    ensures SumColumn(Run(t, us), c) == SumColumn(t, c) + CountedClicks(t, us, c)
    decreases |us|
  {
    if us != [] {
      StepClicks(t, us[0], c);
      RunClicks(Step(t, us[0]).table, us[1..], c);
    }
  }

  /** The handlers as they run against the process's users table. */
  class Bot {
    const db: UserStore

    constructor (db: UserStore)
      ensures this.db == db
    {
      this.db := db;
    }

    method SendWelcome(user: int, sub: Lookup) returns (replies: seq<Reply>)
      modifies db
      ensures Effect(db.users, replies) == Welcome(old(db.users), user, sub)
    {
      db.AddUserRow(user);
      if IsSubscribed(sub) {
        replies := [MainMenu];
      } else {
        replies := [SubscribePrompt];
      }
    }

    method CheckSubscription(user: int, sub: Lookup) returns (replies: seq<Reply>)
      ensures replies == (if IsSubscribed(sub) then [CallbackThanks] else [CallbackNotYet])
    {
      if IsSubscribed(sub) {
        replies := [CallbackThanks];
      } else {
        replies := [CallbackNotYet];
      }
    }

    method MenuClick(user: int, c: Column, sub: Lookup, recheck: Lookup) returns (replies: seq<Reply>)
      modifies db
      ensures Effect(db.users, replies) == Click(old(db.users), user, c, sub, recheck)
    {
      if IsSubscribed(sub) {
        db.IncrementCounter(user, c);
        replies := [FormLink(c)];
      } else {
        var welcome := SendWelcome(user, recheck);
        replies := [SubscribeFirst] + welcome;
      }
    }

    method AdminPanel(sender: int) returns (replies: seq<Reply>)
      ensures sender == AdminId ==> replies == [StatsReport(Stats(|db.users|, SumColumn(db.users, Hdp), SumColumn(db.users, Omon)))]
      ensures sender != AdminId ==> replies == [NotAdmin]
    {
      if sender == AdminId {
        var s := db.ReadStats();
        replies := [StatsReport(s)];
      } else {
        replies := [NotAdmin];
      }
    }

    /** The dispatcher: route an update to its handler. */
    method Handle(u: Update) returns (replies: seq<Reply>)
      modifies db
      ensures Effect(db.users, replies) == Step(old(db.users), u)
    {
      match u
      case StartCommand(user, sub) =>
        replies := SendWelcome(user, sub);
      case CheckSubCallback(user, sub) =>
        replies := CheckSubscription(user, sub);
      case MenuButton(user, c, sub, recheck) =>
        replies := MenuClick(user, c, sub, recheck);
      case AdminCommand(sender) =>
        replies := AdminPanel(sender);
    }
  }
}
