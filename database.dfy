/**
 * The shared sqlite store of `database.py`: a `warnings` table with one
 * row per warning and an AUTOINCREMENT id, a `user_activity` table keyed
 * by (chat, user), and a `referrals` table keyed by (referrer, referred).
 * Every method that touches the database returns what the Python method
 * returns; sqlite errors are not modelled, so the error branches that
 * return False, [] or 0 never arise here. `time.time()` is the `now`
 * parameter.
 */
module SqliteStore {
  import opened Common
  import opened Ranking

  datatype WarningRow = WarningRow(id: int, chatId: int, userId: int, reason: string, timestamp: int, warnedBy: int)

  datatype ActivityRow = ActivityRow(
    messageCount: int, lastActive: int, joinDate: int,
    username: Option<string>, firstName: Option<string>, lastName: Option<string>)

  /** One row of `get_top_active_users`. */
  datatype TopUser = TopUser(
    userId: int, username: Option<string>, firstName: Option<string>, lastName: Option<string>,
    messageCount: int)

  function RowTimestamp(w: WarningRow): int { w.timestamp }

  function TopCount(t: TopUser): int { t.messageCount }

  // ----- warnings -----

  /** The rows of `ws` for one (chat, user), in storage order. */
  function Matching(ws: seq<WarningRow>, chat: int, user: int): (r: seq<WarningRow>)
    ensures |r| <= |ws|
    ensures forall w :: w in r <==> w in ws && w.chatId == chat && w.userId == user
  {
    if ws == [] then []
    else
      var last := ws[|ws| - 1];
      assert ws == ws[..|ws| - 1] + [last];
      var rest := Matching(ws[..|ws| - 1], chat, user);
      if last.chatId == chat && last.userId == user then rest + [last] else rest
  }

  /** The rows of `ws` that are not for (chat, user): what `DELETE ... WHERE chat_id = ? AND user_id = ?` leaves. */
  function Without(ws: seq<WarningRow>, chat: int, user: int): (r: seq<WarningRow>)
    ensures |r| + |Matching(ws, chat, user)| == |ws|
    ensures forall w :: w in r <==> w in ws && !(w.chatId == chat && w.userId == user)
  {
    if ws == [] then []
    else
      var last := ws[|ws| - 1];
      assert ws == ws[..|ws| - 1] + [last];
      var rest := Without(ws[..|ws| - 1], chat, user);
      if last.chatId == chat && last.userId == user then rest else rest + [last]
  }

  /** Row ids strictly increase along the table and stay below `bound`, the next AUTOINCREMENT value. */
  predicate IdsBelow(ws: seq<WarningRow>, bound: int) {
    ws == [] || (ws[|ws| - 1].id < bound && IdsBelow(ws[..|ws| - 1], ws[|ws| - 1].id))
  }

  lemma {:induction false} IdsBelowWeaken(ws: seq<WarningRow>, b: int, b': int)
    requires IdsBelow(ws, b) && b <= b'
    ensures IdsBelow(ws, b')
  {
  }

  /** Appending a row whose id is the current bound keeps the ids increasing, below the next bound. */
  lemma IdsBelowSnoc(ws: seq<WarningRow>, row: WarningRow, bound: int)
    requires IdsBelow(ws, row.id) && row.id < bound
    ensures IdsBelow(ws + [row], bound)
  {
    assert (ws + [row])[..|ws + [row]| - 1] == ws;
  }

  /** The primary key: no two rows share an id, and every id is below the next one handed out. */
  lemma {:induction false} IdsBelowUnique(ws: seq<WarningRow>, bound: int)
    requires IdsBelow(ws, bound)
    ensures forall i :: 0 <= i < |ws| ==> ws[i].id < bound
    ensures forall i, j :: 0 <= i < j < |ws| ==> ws[i].id < ws[j].id
  {
    if ws != [] {
      var init := ws[..|ws| - 1];
      IdsBelowUnique(init, ws[|ws| - 1].id);
      forall i | 0 <= i < |ws| - 1 ensures ws[i] == init[i] { }
    }
  }

  lemma {:induction false} WithoutIdsBelow(ws: seq<WarningRow>, chat: int, user: int, bound: int)
    requires IdsBelow(ws, bound)
    ensures IdsBelow(Without(ws, chat, user), bound)
  {
    if ws != [] {
      var last := ws[|ws| - 1];
      var init := ws[..|ws| - 1];
      WithoutIdsBelow(init, chat, user, last.id);
      if last.chatId == chat && last.userId == user {
        IdsBelowWeaken(Without(init, chat, user), last.id, bound);
      } else {
        var r := Without(init, chat, user) + [last];
        assert r[..|r| - 1] == Without(init, chat, user);
      }
    }
  }

  /** Appending a row extends the matching rows of its own pair by that row and leaves every other pair's rows as they were. */
  lemma MatchingAppend(ws: seq<WarningRow>, w: WarningRow, chat: int, user: int)
    ensures Matching(ws + [w], chat, user)
         == if w.chatId == chat && w.userId == user then Matching(ws, chat, user) + [w] else Matching(ws, chat, user)
  {
    assert (ws + [w])[..|ws + [w]| - 1] == ws;
  }

  /** After clearing a pair nothing of it is left. */
  lemma ClearedNoMatch(ws: seq<WarningRow>, chat: int, user: int)
    ensures Matching(Without(ws, chat, user), chat, user) == []
  {
  }

  /** Clearing one pair leaves the rows of every other pair intact. */
  lemma {:induction false} ClearKeepsOthers(ws: seq<WarningRow>, chat: int, user: int, chat': int, user': int)
    requires (chat', user') != (chat, user)
    ensures Matching(Without(ws, chat, user), chat', user') == Matching(ws, chat', user')
  {
    if ws != [] {
      var last := ws[|ws| - 1];
      var init := ws[..|ws| - 1];
      ClearKeepsOthers(init, chat, user, chat', user');
      if !(last.chatId == chat && last.userId == user) {
        MatchingAppend(Without(init, chat, user), last, chat', user');
      }
    }
  }

  /** Clearing twice is clearing once. */
  lemma {:induction false} ClearIdempotent(ws: seq<WarningRow>, chat: int, user: int)
    ensures Without(Without(ws, chat, user), chat, user) == Without(ws, chat, user)
  {
    if ws != [] {
      var last := ws[|ws| - 1];
      var init := ws[..|ws| - 1];
      ClearIdempotent(init, chat, user);
      if !(last.chatId == chat && last.userId == user) {
        var r := Without(init, chat, user) + [last];
        assert r[..|r| - 1] == Without(init, chat, user);
      }
    }
  }

  // ----- user activity -----

  /** SQL `COALESCE(new, old)`. */
  function Coalesce<T>(x: Option<T>, y: Option<T>): Option<T> {
    if x.Some? then x else y
  }

  /**
   * The `user_activity` table after one message of `user` in `chat` at
   * time `now`: the UPDATE of an existing row, or the INSERT of a fresh one
   * when the UPDATE touched no row.
   */
  function Touched(m: map<(int, int), ActivityRow>, chat: int, user: int,
                   username: Option<string>, firstName: Option<string>, lastName: Option<string>, now: int)
    : (r: map<(int, int), ActivityRow>)
    ensures (chat, user) in r && r[(chat, user)].lastActive == now
    ensures (chat, user) in m ==>
      && r[(chat, user)].messageCount == m[(chat, user)].messageCount + 1
      && r[(chat, user)].joinDate == m[(chat, user)].joinDate
      && r[(chat, user)].username == (if username.Some? then username else m[(chat, user)].username)
      && r[(chat, user)].firstName == (if firstName.Some? then firstName else m[(chat, user)].firstName)
      && r[(chat, user)].lastName == (if lastName.Some? then lastName else m[(chat, user)].lastName)
    ensures (chat, user) !in m ==>
      r[(chat, user)] == ActivityRow(1, now, now, username, firstName, lastName)
    ensures forall k :: k != (chat, user) ==> (k in r <==> k in m) && (k in m ==> r[k] == m[k])
  {
    if (chat, user) in m then
      var a := m[(chat, user)];
      m[(chat, user) := a.(messageCount := a.messageCount + 1, lastActive := now,
                           username := Coalesce(username, a.username),
                           firstName := Coalesce(firstName, a.firstName),
                           lastName := Coalesce(lastName, a.lastName))]
    else
      m[(chat, user) := ActivityRow(1, now, now, username, firstName, lastName)]
  }

  /** The users of `chat` with an activity row. */
  function ChatUsers(m: map<(int, int), ActivityRow>, chat: int): (r: set<int>)
    ensures forall u :: u in r <==> (chat, u) in m
  {
    set k | k in m && k.0 == chat :: k.1
  }

  /** The distinct users of `chat` whose last activity lies in the closed interval [start, end]. */
  function ActiveUsers(m: map<(int, int), ActivityRow>, chat: int, start: int, end: int): (r: set<int>)
    ensures forall u :: u in r <==> (chat, u) in m && start <= m[(chat, u)].lastActive <= end
  {
    set k | k in m && k.0 == chat && start <= m[k].lastActive <= end :: k.1
  }

  /**
   * A message moves its author into every window that contains `now` and
   * out of every window that does not, and changes no other user's standing.
   */
  lemma ActiveAfterTouch(m: map<(int, int), ActivityRow>, chat: int, user: int,
                         username: Option<string>, firstName: Option<string>, lastName: Option<string>,
                         now: int, start: int, end: int)
    ensures var m' := Touched(m, chat, user, username, firstName, lastName, now);
      ActiveUsers(m', chat, start, end)
        == if start <= now <= end then ActiveUsers(m, chat, start, end) + {user}
           else ActiveUsers(m, chat, start, end) - {user}
  {
    var m' := Touched(m, chat, user, username, firstName, lastName, now);
    var a, b := ActiveUsers(m', chat, start, end), ActiveUsers(m, chat, start, end);
    forall u ensures u in a <==> u in (if start <= now <= end then b + {user} else b - {user}) {
      if u != user {
        assert (chat, u) != (chat, user);
      }
    }
  }

  function TopUserOf(m: map<(int, int), ActivityRow>, chat: int, u: int): TopUser
    requires (chat, u) in m
  {
    var a := m[(chat, u)];
    TopUser(u, a.username, a.firstName, a.lastName, a.messageCount)
  }

  function TopId(t: TopUser): int { t.userId }

  /** `all` lists exactly the users in `done`, once each, with their rows of `m`, by message count. */
  predicate Ranked(m: map<(int, int), ActivityRow>, chat: int, all: seq<TopUser>, done: set<int>) {
    && SortedDesc(all, TopCount)
    && DistinctBy(all, TopId)
    && (forall i :: 0 <= i < |all| ==> (chat, all[i].userId) in m && all[i] == TopUserOf(m, chat, all[i].userId))
    && IdsOf(all, TopId) == done
    && |all| == |done|
  }

  /** Splicing the row of one more user into a ranking of `done`, where it keeps the order, ranks `done` plus that user. */
  lemma RankStep(m: map<(int, int), ActivityRow>, chat: int, all: seq<TopUser>, users: set<int>, todo: set<int>, u: int, k: nat)
    requires todo <= users && u in todo && (chat, u) in m && k <= |all|
    requires Ranked(m, chat, all, users - todo)
    requires SortedDesc(all[..k] + [TopUserOf(m, chat, u)] + all[k..], TopCount)
    ensures Ranked(m, chat, all[..k] + [TopUserOf(m, chat, u)] + all[k..], users - (todo - {u}))
  {
    var row := TopUserOf(m, chat, u);
    var all' := all[..k] + [row] + all[k..];
    SpliceDistinct(all, row, k, TopId);
    forall i | 0 <= i < |all'|
      ensures (chat, all'[i].userId) in m && all'[i] == TopUserOf(m, chat, all'[i].userId)
    {
      SpliceAt(all, row, k, i);
    }
    assert users - (todo - {u}) == (users - todo) + {u};
  }

  /**
   * `r` is what `get_top_active_users(chat, limit)` may return: distinct
   * users of `chat` with their own rows, by message count, highest first,
   * `limit` of them (all when `limit` is negative or too large), and every
   * user left out has no more messages than any user listed.
   */
  predicate TopListing(m: map<(int, int), ActivityRow>, chat: int, r: seq<TopUser>, limit: int) {
    && SortedDesc(r, TopCount)
    && DistinctBy(r, TopId)
    && (forall i :: 0 <= i < |r| ==> (chat, r[i].userId) in m && r[i] == TopUserOf(m, chat, r[i].userId))
    && |r| == (if 0 <= limit < |ChatUsers(m, chat)| then limit else |ChatUsers(m, chat)|)
    && (forall u, i :: u in ChatUsers(m, chat) && u !in IdsOf(r, TopId) && 0 <= i < |r|
          ==> m[(chat, u)].messageCount <= r[i].messageCount)
  }

  /** A prefix of a ranking of every user of `chat` is a top listing. */
  lemma RankedPrefix(m: map<(int, int), ActivityRow>, chat: int, all: seq<TopUser>, limit: int)
    requires Ranked(m, chat, all, ChatUsers(m, chat))
    ensures TopListing(m, chat, all[..if 0 <= limit < |all| then limit else |all|], limit)
  {
    var n := if 0 <= limit < |all| then limit else |all|;
    var r := all[..n];
    TakePrefix(all, n, TopCount, TopId);
    forall i | 0 <= i < |r| ensures (chat, r[i].userId) in m && r[i] == TopUserOf(m, chat, r[i].userId) {
      assert r[i] == all[i];
    }
    forall u, i | u in ChatUsers(m, chat) && u !in IdsOf(r, TopId) && 0 <= i < |r|
      ensures m[(chat, u)].messageCount <= r[i].messageCount
    {
      var j :| 0 <= j < |all| && TopId(all[j]) == u;
      assert j >= n;
      assert TopCount(all[j]) <= TopCount(r[i]);
      assert all[j] == TopUserOf(m, chat, u);
    }
  }

  // ----- the database -----

  class Database {
    var warnings: seq<WarningRow>
    var nextId: int
    var activity: map<(int, int), ActivityRow>
    var referrals: map<(int, int), int>

    ghost predicate Valid()
      reads this
    {
      IdsBelow(warnings, nextId)
    }

    /** `_create_tables` on a fresh database file. */
    constructor ()
      ensures Valid()
      ensures warnings == [] && activity == map[] && referrals == map[]
    {
      warnings := [];
      nextId := 1;
      activity := map[];
      referrals := map[];
    }

    /** `add_warning`: inserts one row with a fresh id and the current time. */
    method AddWarning(chat: int, user: int, reason: string, warnedBy: int, now: int) returns (ok: bool)
      requires Valid()
      modifies this
      ensures Valid()
      ensures ok
      ensures warnings == old(warnings) + [WarningRow(old(nextId), chat, user, reason, now, warnedBy)]
      ensures nextId > old(nextId)
      ensures activity == old(activity) && referrals == old(referrals)
    {
      var row := WarningRow(nextId, chat, user, reason, now, warnedBy);
      IdsBelowSnoc(warnings, row, nextId + 1);
      warnings := warnings + [row];
      nextId := nextId + 1;
      ok := true;
    }

    /** `get_warnings`: the rows of (chat, user), newest first. */
    method GetWarnings(chat: int, user: int) returns (r: seq<WarningRow>)
      ensures multiset(r) == multiset(Matching(warnings, chat, user))
      ensures SortedDesc(r, RowTimestamp)
    {
      r := [];
      var i := 0;
      while i < |warnings|
        invariant 0 <= i <= |warnings|
        invariant SortedDesc(r, RowTimestamp)
        invariant multiset(r) == multiset(Matching(warnings[..i], chat, user))
      {
        var w := warnings[i];
        assert warnings[..i + 1] == warnings[..i] + [w];
        MatchingAppend(warnings[..i], w, chat, user);
        if w.chatId == chat && w.userId == user {
          var k;
          r, k := InsertDesc(r, w, RowTimestamp);
        }
        i := i + 1;
      }
      assert warnings[..|warnings|] == warnings;
    }

    /** `clear_warnings`: deletes every row of (chat, user) and reports whether any was deleted. */
    method ClearWarnings(chat: int, user: int) returns (removed: bool)
      requires Valid()
      modifies this`warnings
      ensures Valid()
      ensures warnings == Without(old(warnings), chat, user)
      ensures removed == (Matching(old(warnings), chat, user) != [])
    {
      var before := |warnings|;
      WithoutIdsBelow(warnings, chat, user, nextId);
      warnings := Without(warnings, chat, user);
      var rowcount := before - |warnings|;
      removed := rowcount > 0;
    }

    /** `update_user_activity`: UPDATE the pair's row, and INSERT one when no row was updated. */
    method UpdateUserActivity(chat: int, user: int, username: Option<string>, firstName: Option<string>,
                              lastName: Option<string>, now: int) returns (ok: bool)
      modifies this`activity
      ensures ok
      ensures activity == Touched(old(activity), chat, user, username, firstName, lastName, now)
    {
      var rowcount := 0;
      if (chat, user) in activity {
        var a := activity[(chat, user)];
        activity := activity[(chat, user) := a.(messageCount := a.messageCount + 1, lastActive := now,
                                                username := Coalesce(username, a.username),
                                                firstName := Coalesce(firstName, a.firstName),
                                                lastName := Coalesce(lastName, a.lastName))];
        rowcount := 1;
      }
      if rowcount == 0 {
        activity := activity[(chat, user) := ActivityRow(1, now, now, username, firstName, lastName)];
      }
      ok := true;
    }

    /** `get_active_users_count`: the number of distinct users of `chat` active in [start, end]. */
    method GetActiveUsersCount(chat: int, start: int, end: int) returns (n: nat)
      ensures n == |ActiveUsers(activity, chat, start, end)|
    {
      n := |ActiveUsers(activity, chat, start, end)|;
    }

    /** Every user of `chat` with an activity row, by message count, highest first. */
    method RankChatUsers(chat: int) returns (all: seq<TopUser>)
      ensures Ranked(activity, chat, all, ChatUsers(activity, chat))
    {
      var users := ChatUsers(activity, chat);
      var todo := users;
      all := [];
      assert users - todo == {};
      assert IdsOf(all, TopId) == {};
      while |todo| > 0
        invariant todo <= users
        invariant Ranked(activity, chat, all, users - todo)
        decreases |todo|
      {
        SomeMember(todo);
        var u :| u in todo;
        var row := TopUserOf(activity, chat, u);
        var all', k := InsertDesc(all, row, TopCount);
        RankStep(activity, chat, all, users, todo, u, k);
        all := all';
        todo := todo - {u};
      }
    }

    /**
     * `get_top_active_users`: the users of `chat` by message count, highest
     * first, cut to `limit` rows (sqlite treats a negative LIMIT as none).
     */
    method GetTopActiveUsers(chat: int, limit: int) returns (r: seq<TopUser>)
      ensures TopListing(activity, chat, r, limit)
    {
      var all := RankChatUsers(chat);
      RankedPrefix(activity, chat, all, limit);
      r := all[..if 0 <= limit < |all| then limit else |all|];
    }

    /** `add_referral`: INSERT OR IGNORE on (referrer, referred); true when a row was inserted. */
    method AddReferral(referrer: int, referred: int, now: int) returns (added: bool)
      modifies this`referrals
      ensures added == ((referrer, referred) !in old(referrals))
      ensures referrals == if added then old(referrals)[(referrer, referred) := now] else old(referrals)
    {
      var rowcount := 0;
      if (referrer, referred) !in referrals {
        referrals := referrals[(referrer, referred) := now];
        rowcount := 1;
      }
      added := rowcount > 0;
    }

    /** `get_referral_count`: the number of stored pairs whose referrer is `user`. */
    method GetReferralCount(user: int) returns (n: nat)
      ensures n == |PairsOf(referrals, user)|
    {
      n := |PairsOf(referrals, user)|;
    }
  }

  /** The stored referral pairs whose referrer is `user`. */
  function PairsOf(m: map<(int, int), int>, user: int): (r: set<(int, int)>)
    ensures forall p :: p in r <==> p in m && p.0 == user
  {
    set p | p in m && p.0 == user
  }

  /**
   * A referrer's count grows by one exactly when `add_referral` inserts a
   * pair of theirs, and no other referrer's count changes.
   */
  lemma ReferralCountAfterAdd(m: map<(int, int), int>, referrer: int, referred: int, now: int, user: int)
    ensures var added := (referrer, referred) !in m;
      var m' := if added then m[(referrer, referred) := now] else m;
      |PairsOf(m', user)| == |PairsOf(m, user)| + (if added && user == referrer then 1 else 0)
  {
    if (referrer, referred) !in m {
      var m' := m[(referrer, referred) := now];
      if user == referrer {
        assert PairsOf(m', user) == PairsOf(m, user) + {(referrer, referred)};
      } else {
        assert PairsOf(m', user) == PairsOf(m, user);
      }
    }
  }
}
