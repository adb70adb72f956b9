/**
 * `bot.py`, the single-file FreshBot: its own sqlite file with a
 * `warnings` table holding one counter per (chat, user), an append-only
 * `activity` log and a `referrals` table keyed by (referrer, referred),
 * and the command handlers `/warn`, `/start` and `/activity` that read and
 * write them. The clock is the `now` parameter; the outcome of each
 * Telegram call that decides what is written is a boolean parameter.
 */
module FreshBot {
  import opened Common
  import opened PyStr
  import opened Ranking

  /** `WARN_THRESHOLD` when the environment does not set it. */
  const DefaultWarnThreshold := 3

  const DaySeconds := 24 * 3600

  /** At most this many rows are listed by `/activity`. */
  const ActivityLimit := 25

  /** The message a command answers: its text, and the message it replies to, if any. */
  datatype Message = Message(text: string, replyTo: ReplyTo)

  /** A row of the `warnings` table, keyed by (chat_id, user_id). */
  datatype Counter = Counter(count: int, lastReason: string, updatedAt: int)

  /** A row of the `activity` table. */
  datatype ActivityEvent = ActivityEvent(chatId: int, userId: int, ts: int)

  // ----- target and reason of a moderation command -----

  /**
   * `_parse_target`: the sender of the replied-to message when there is a
   * reply (nothing when that sender is unknown), otherwise the second
   * whitespace token when it consists of digits, otherwise nothing.
   */
  function ParseTarget(msg: Option<Message>): (r: Option<int>)
    ensures msg.None? ==> r.None?
    ensures msg.Some? && msg.value.replyTo.ReplyTo? ==> r == msg.value.replyTo.fromUser
    ensures msg.Some? && msg.value.replyTo.NoReply? ==>
      var parts := Words(msg.value.text);
      && (r.Some? <==> |parts| >= 2 && AllDigits(parts[1]))
      && (r.Some? ==> r.value == DigitsValue(parts[1]) as int && r.value >= 0)
  {
    match msg
    case None => None
    case Some(m) =>
      if m.replyTo.ReplyTo? then m.replyTo.fromUser
      else
        var parts := Words(m.text);
        if |parts| >= 2 && AllDigits(parts[1]) then
          ParseDigits(parts[1]);
          ParseInt(parts[1])
        else None
  }

  const NoReason := "No reason provided"

  /** The reason `cmd_warn` records: the words after the second one, or a fixed text. */
  function WarnReason(text: string): (r: string)
    ensures |Words(text)| <= 2 ==> r == NoReason
    ensures |Words(text)| > 2 ==> Words(r) == Words(text)[2..]
  {
    var parts := Words(text);
    if |parts| > 2 then
      WordsAreTokens(text);
      assert forall i :: 0 <= i < |parts[2..]| ==> parts[2..][i] == parts[i + 2];
      WordsJoin(parts[2..]);
      Join(" ", parts[2..])
    else NoReason
  }

  /**
   * The reason when the target is given by a reply: every word after the
   * command is the reason, as the help text `/warn (reply) [reason]`
   * describes. With a numeric id the first two words are skipped as before.
   */
  function IntendedWarnReason(text: string, byReply: bool): string {
    var parts := Words(text);
    var skip := if byReply then 1 else 2;
    if |parts| > skip then Join(" ", parts[skip..]) else NoReason
  }

  /** As written, a one-word reason given with a reply is lost; the intended reading keeps it. */
  lemma ReplyReasonLost()
    ensures WarnReason("/warn spam") == NoReason
    ensures IntendedWarnReason("/warn spam", true) == "spam"
  {
    var ws := ["/warn", "spam"];
    assert NoSpace(ws[0]) && NoSpace(ws[1]);
    assert Join(" ", ws) == "/warn spam";
    WordsJoin(ws);
    assert ws[1..] == ["spam"];
  }

  /** With the intended reading, the recorded reason carries exactly the words after the command (after the id as well, with a numeric id). */
  lemma IntendedReasonKeepsWords(text: string, byReply: bool)
    ensures var parts, skip := Words(text), if byReply then 1 else 2;
      |parts| > skip ==> Words(IntendedWarnReason(text, byReply)) == parts[skip..]
  {
    var parts, skip := Words(text), if byReply then 1 else 2;
    if |parts| > skip {
      WordsAreTokens(text);
      WordsJoin(parts[skip..]);
    }
  }

  // ----- the warnings counter -----

  /** The stored warning count of a pair, 0 when it has no row. */
  function WarnCount(m: map<(int, int), Counter>, key: (int, int)): int {
    if key in m then m[key].count else 0
  }

  /** The `warnings` table after `_add_warning`: the pair's count goes up by one, with the new reason and time. */
  function Bumped(m: map<(int, int), Counter>, key: (int, int), reason: string, now: int): (r: map<(int, int), Counter>)
    ensures key in r && r[key].lastReason == reason && r[key].updatedAt == now
    ensures WarnCount(r, key) == WarnCount(m, key) + 1
    ensures forall k :: k != key ==> (k in r <==> k in m) && (k in m ==> r[k] == m[k])
  {
    m[key := Counter(WarnCount(m, key) + 1, reason, now)]
  }

  /** After `_clear_warnings` the next warning of the pair counts 1 again. */
  lemma ClearThenWarn(m: map<(int, int), Counter>, key: (int, int), reason: string, now: int)
    ensures WarnCount(Bumped(m - {key}, key, reason, now), key) == 1
  {
    assert key !in m - {key};
  }

  /** Short of a clear, no pair's count ever goes down. */
  lemma BumpNeverDecreases(m: map<(int, int), Counter>, key: (int, int), reason: string, now: int, k: (int, int))
    ensures WarnCount(Bumped(m, key, reason, now), k) >= WarnCount(m, k)
  {
    if k != key {
      assert k in Bumped(m, key, reason, now) <==> k in m;
    }
  }

  // ----- referrals -----

  /**
   * The `referrals` table after `_record_referral` at time `now`: nothing
   * for a self-referral, nothing for a pair already stored (INSERT OR
   * IGNORE keeps the first row), otherwise the pair with time `now`.
   */
  function Referred(m: map<(int, int), int>, referrer: int, referred: int, now: int): (r: map<(int, int), int>)
    ensures referrer == referred ==> r == m
    ensures (referrer, referred) in m ==> r == m
    ensures referrer != referred && (referrer, referred) !in m ==> r == m[(referrer, referred) := now]
  {
    if referrer == referred || (referrer, referred) in m then m else m[(referrer, referred) := now]
  }

  /** Recording the same referral again changes nothing: the first timestamp stays. */
  lemma ReferredIdempotent(m: map<(int, int), int>, referrer: int, referred: int, t1: int, t2: int)
    ensures Referred(Referred(m, referrer, referred, t1), referrer, referred, t2) == Referred(m, referrer, referred, t1)
  {
  }

  /** The referrer `cmd_start` reads from its arguments: only in a private chat, and only when the first argument is an integer. */
  function StartReferrer(chat: Option<ChatType>, args: seq<string>): (r: Option<int>)
    ensures r.Some? ==> chat == Some(Private) && |args| > 0 && ParseInt(args[0]) == r
    ensures chat == Some(Private) && |args| > 0 && ParseInt(args[0]).Some? ==> r.Some?
  {
    if |args| > 0 && chat == Some(Private) then ParseInt(args[0]) else None
  }

  /** The referral link `t.me/<bot>?start=<id>` hands `str(id)` to `/start`, which reads back that id. */
  lemma ReferralLinkRoundTrip(referrer: int)
    ensures StartReferrer(Some(Private), [IntToString(referrer)]) == Some(referrer)
  {
    ParseIntToString(referrer);
  }

  // ----- activity -----

  /** The rows `cmd_activity` counts: those of `chat`, and with `since > 0` only those at or after `since`. */
  predicate Kept(e: ActivityEvent, chat: int, since: int) {
    e.chatId == chat && (since <= 0 || e.ts >= since)
  }

  /** `COUNT(*)` of the kept rows of one user. */
  function MsgCount(evs: seq<ActivityEvent>, chat: int, user: int, since: int): (n: nat)
    ensures n <= |evs|
    ensures n > 0 <==> exists i :: 0 <= i < |evs| && Kept(evs[i], chat, since) && evs[i].userId == user
  {
    if evs == [] then 0
    else
      var init := evs[..|evs| - 1];
      var e := evs[|evs| - 1];
      var n := MsgCount(init, chat, user, since);
      assert forall i :: 0 <= i < |init| ==> init[i] == evs[i];
      if Kept(e, chat, since) && e.userId == user then n + 1 else n
  }

  /** The users with at least one kept row: the groups of `GROUP BY user_id`. */
  function Posters(evs: seq<ActivityEvent>, chat: int, since: int): (r: set<int>)
    ensures forall u :: u in r <==> MsgCount(evs, chat, u, since) > 0
  {
    set i | 0 <= i < |evs| && Kept(evs[i], chat, since) :: evs[i].userId
  }

  /** A wider window (an earlier `since`, or none) counts at least as many messages. */
  lemma {:induction false} CountAntitone(evs: seq<ActivityEvent>, chat: int, user: int, s1: int, s2: int)
    requires s1 <= s2 || s1 <= 0
    ensures MsgCount(evs, chat, user, s2) <= MsgCount(evs, chat, user, s1)
  {
    if evs != [] {
      CountAntitone(evs[..|evs| - 1], chat, user, s1, s2);
    }
  }

  /** The period `cmd_activity` reports: its first argument lowered, `all` without one. */
  function Period(args: seq<string>): (r: string)
    ensures args == [] ==> r == "all"
    ensures args != [] ==> r == Lower(args[0])
  {
    if |args| > 0 then Lower(args[0]) else "all"
  }

  /** The `spans` table of `cmd_activity`: the start of each period, 0 (all time) for `all` and for any unknown period. */
  function PeriodSince(period: string, now: int): (r: int)
    ensures period == "day" || period == "week" || period == "month" ==> now - 30 * DaySeconds <= r <= now - DaySeconds
    ensures period == "day" ==> r == now - DaySeconds
    ensures period == "week" ==> r == now - 7 * DaySeconds
    ensures period == "month" ==> r == now - 30 * DaySeconds
    ensures period != "day" && period != "week" && period != "month" ==> r == 0
  {
    if period == "day" then now - DaySeconds
    else if period == "week" then now - 7 * DaySeconds
    else if period == "month" then now - 30 * DaySeconds
    else 0
  }

  /** Counts grow from day to week to month to all time, and an unknown period counts all time. */
  lemma PeriodsNest(evs: seq<ActivityEvent>, chat: int, user: int, now: int, other: string)
    requires other != "day" && other != "week" && other != "month"
    ensures var c := (p: string) => MsgCount(evs, chat, user, PeriodSince(p, now));
      c("day") <= c("week") <= c("month") <= c("all") && c(other) == c("all")
  {
    CountAntitone(evs, chat, user, now - 7 * DaySeconds, now - DaySeconds);
    CountAntitone(evs, chat, user, now - 30 * DaySeconds, now - 7 * DaySeconds);
    CountAntitone(evs, chat, user, 0, now - 30 * DaySeconds);
  }

  /** One line of the `/activity` listing: a user and their message count. */
  datatype ActiveRow = ActiveRow(userId: int, msgs: int)

  function RowUser(r: ActiveRow): int { r.userId }

  function RowMsgs(r: ActiveRow): int { r.msgs }

  /** `all` lists exactly the users in `done`, once each, with their counts from `evs`, most messages first. */
  predicate Listed(evs: seq<ActivityEvent>, chat: int, since: int, all: seq<ActiveRow>, done: set<int>) {
    && SortedDesc(all, RowMsgs)
    && DistinctBy(all, RowUser)
    && (forall i :: 0 <= i < |all| ==> all[i].msgs == MsgCount(evs, chat, all[i].userId, since))
    && IdsOf(all, RowUser) == done
    && |all| == |done|
  }

  /** Splicing the row of one more user into a listing of `done`, where it keeps the order, lists `done` plus that user. */
  lemma ListStep(evs: seq<ActivityEvent>, chat: int, since: int, all: seq<ActiveRow>,
                 users: set<int>, todo: set<int>, u: int, k: nat)
    requires todo <= users && u in todo && k <= |all|
    requires Listed(evs, chat, since, all, users - todo)
    requires SortedDesc(all[..k] + [ActiveRow(u, MsgCount(evs, chat, u, since))] + all[k..], RowMsgs)
    ensures Listed(evs, chat, since, all[..k] + [ActiveRow(u, MsgCount(evs, chat, u, since))] + all[k..], users - (todo - {u}))
  {
    var row := ActiveRow(u, MsgCount(evs, chat, u, since));
    var all' := all[..k] + [row] + all[k..];
    SpliceDistinct(all, row, k, RowUser);
    forall i | 0 <= i < |all'| ensures all'[i].msgs == MsgCount(evs, chat, all'[i].userId, since) {
      SpliceAt(all, row, k, i);
    }
    assert users - (todo - {u}) == (users - todo) + {u};
  }

  /**
   * `rows` is what `ORDER BY msgs DESC LIMIT limit` can return: users who
   * posted, once each, with their counts, most first, as many as the limit
   * allows, and nobody left out has more messages than anybody listed.
   */
  predicate TopPosters(evs: seq<ActivityEvent>, chat: int, since: int, rows: seq<ActiveRow>, limit: nat) {
    var users := Posters(evs, chat, since);
    && SortedDesc(rows, RowMsgs)
    && DistinctBy(rows, RowUser)
    && (forall i :: 0 <= i < |rows| ==>
          rows[i].userId in users && rows[i].msgs == MsgCount(evs, chat, rows[i].userId, since))
    && |rows| == (if |users| < limit then |users| else limit)
    && (forall u, i :: u in users && u !in IdsOf(rows, RowUser) && 0 <= i < |rows|
          ==> MsgCount(evs, chat, u, since) <= rows[i].msgs)
  }

  /** The first `limit` rows of a full listing are the top posters. */
  lemma ListingPrefix(evs: seq<ActivityEvent>, chat: int, since: int, all: seq<ActiveRow>, limit: nat)
    requires Listed(evs, chat, since, all, Posters(evs, chat, since))
    ensures TopPosters(evs, chat, since, all[..if |all| < limit then |all| else limit], limit)
  {
    var users := Posters(evs, chat, since);
    var n := if |all| < limit then |all| else limit;
    var rows := all[..n];
    TakePrefix(all, n, RowMsgs, RowUser);
    forall i | 0 <= i < |rows| ensures rows[i].userId in users && rows[i].msgs == MsgCount(evs, chat, rows[i].userId, since) {
      assert rows[i] == all[i];
      assert RowUser(all[i]) in IdsOf(all, RowUser);
    }
    forall u, i | u in users && u !in IdsOf(rows, RowUser) && 0 <= i < |rows|
      ensures MsgCount(evs, chat, u, since) <= rows[i].msgs
    {
      var j :| 0 <= j < |all| && RowUser(all[j]) == u;
      assert j >= n;
      assert RowMsgs(all[j]) <= RowMsgs(rows[i]);
    }
  }

  /**
   * What `/warn` answers. `WarnReplyRaised` is a counted warning whose
   * "Warned user" reply raised: it stands outside any `try`, so the handler
   * stopped there and no ban was attempted.
   */
  datatype WarnReply =
    | WarnUseInGroup
    | WarnNeedTarget
    | WarnReplyRaised(target: int, count: int)
    | Warned(target: int, count: int, banAttempted: bool, banned: bool, cleared: bool)

  /** What `/activity` answers: a refusal outside groups, or the period and its rows (none yet when empty). */
  datatype ActivityReply = ActivityUseInGroup | Listing(period: string, rows: seq<ActiveRow>)

  class Bot {
    var warnings: map<(int, int), Counter>
    var activity: seq<ActivityEvent>
    var referrals: map<(int, int), int>
    const warnThreshold: int

    /** Every stored counter has counted at least one warning. */
    ghost predicate Valid()
      reads this
    {
      forall k :: k in warnings ==> warnings[k].count >= 1
    }

    /** `_init_db` on a fresh file; `threshold` is `WARN_THRESHOLD`. */
    constructor (threshold: int)
      ensures Valid()
      ensures warnings == map[] && activity == [] && referrals == map[] && warnThreshold == threshold
    {
      warnings := map[];
      activity := [];
      referrals := map[];
      warnThreshold := threshold;
    }

    /** `_add_warning`: SELECT the pair's count, then UPDATE it to one more or INSERT a first row; returns the new count. */
    method AddWarning(chat: int, user: int, reason: string, now: int) returns (count: int)
      requires Valid()
      modifies this`warnings
      ensures Valid()
      ensures count == WarnCount(old(warnings), (chat, user)) + 1 && count >= 1
      ensures warnings == Bumped(old(warnings), (chat, user), reason, now)
    {
      if (chat, user) in warnings {
        count := warnings[(chat, user)].count + 1;
      } else {
        count := 1;
      }
      warnings := warnings[(chat, user) := Counter(count, reason, now)];
    }

    /** `_clear_warnings`: deletes the pair's row. */
    method ClearWarnings(chat: int, user: int)
      requires Valid()
      modifies this`warnings
      ensures Valid()
      ensures warnings == old(warnings) - {(chat, user)}
      ensures WarnCount(warnings, (chat, user)) == 0
    {
      warnings := warnings - {(chat, user)};
    }

    /** `_record_activity`: appends one row. */
    method RecordActivity(chat: int, user: int, now: int)
      modifies this`activity
      ensures activity == old(activity) + [ActivityEvent(chat, user, now)]
    {
      activity := activity + [ActivityEvent(chat, user, now)];
    }

    /** `_record_referral`: ignores a self-referral, then INSERT OR IGNORE. */
    method RecordReferral(referrer: int, referred: int, now: int)
      modifies this`referrals
      ensures referrals == Referred(old(referrals), referrer, referred, now)
    {
      if referrer == referred {
        return;
      }
      if (referrer, referred) !in referrals {
        referrals := referrals[(referrer, referred) := now];
      }
    }

    /** The referral step of `cmd_start`; the welcome text is not modelled. */
    method CmdStart(chat: Option<ChatType>, args: seq<string>, user: int, now: int)
      modifies this`referrals
      ensures referrals == match StartReferrer(chat, args)
                           case None => old(referrals)
                           case Some(r) => Referred(old(referrals), r, user, now)
    {
      if |args| > 0 && chat == Some(Private) {
        var referrer := ParseInt(args[0]);
        if referrer.Some? {
          RecordReferral(referrer.value, user, now);
        }
      }
    }

    /**
     * `cmd_warn`. Outside a group, or without a target (a missing or zero
     * id), nothing is stored. Otherwise the count goes up and the "Warned
     * user" reply goes out (`replyOk`; when it raises, the handler stops
     * there). When the count reaches the threshold a ban is tried, and the
     * counter is cleared only when the ban and the reply after it both
     * succeed (`banOk`, `notifyOk`).
     */
    method CmdWarn(chat: Option<ChatType>, chatId: int, msg: Message, replyOk: bool, banOk: bool, notifyOk: bool, now: int)
      returns (r: WarnReply)
      requires Valid()
      modifies this`warnings
      ensures Valid()
      ensures !InGroup(chat) ==> r == WarnUseInGroup && warnings == old(warnings)
      ensures InGroup(chat) && !Truthy(ParseTarget(Some(msg))) ==> r == WarnNeedTarget && warnings == old(warnings)
      ensures InGroup(chat) && Truthy(ParseTarget(Some(msg))) ==>
        var t := ParseTarget(Some(msg)).value;
        var c := WarnCount(old(warnings), (chatId, t)) + 1;
        var bumped := Bumped(old(warnings), (chatId, t), WarnReason(msg.text), now);
        && r == (if !replyOk then WarnReplyRaised(t, c)
                 else Warned(t, c, c >= warnThreshold, c >= warnThreshold && banOk, c >= warnThreshold && banOk && notifyOk))
        && warnings == if r.Warned? && r.cleared then bumped - {(chatId, t)} else bumped
    {
      var target := ParseTarget(Some(msg));
      var reason := WarnReason(msg.text);
      if !InGroup(chat) {
        return WarnUseInGroup;
      }
      if !Truthy(target) {
        return WarnNeedTarget;
      }
      var t := target.value;
      var count := AddWarning(chatId, t, reason, now);
      if !replyOk {
        return WarnReplyRaised(t, count);
      }
      var banned, cleared := false, false;
      if count >= warnThreshold {
        if banOk {
          banned := true;
          if notifyOk {
            ClearWarnings(chatId, t);
            cleared := true;
          }
        }
      }
      r := Warned(t, count, count >= warnThreshold, banned, cleared);
    }

    /** Every user with a kept message in `chat`, with their counts, most messages first. */
    method ListPosters(chat: int, since: int) returns (all: seq<ActiveRow>)
      ensures Listed(activity, chat, since, all, Posters(activity, chat, since))
    {
      var evs := activity;
      var users := Posters(evs, chat, since);
      var todo := users;
      all := [];
      assert users - todo == {};
      assert IdsOf(all, RowUser) == {};
      while |todo| > 0
        invariant todo <= users
        invariant Listed(evs, chat, since, all, users - todo)
        decreases |todo|
      {
        SomeMember(todo);
        var u :| u in todo;
        var row := ActiveRow(u, MsgCount(evs, chat, u, since));
        var all', k := InsertDesc(all, row, RowMsgs);
        ListStep(evs, chat, since, all, users, todo, u, k);
        all := all';
        todo := todo - {u};
      }
    }

    /**
     * `cmd_activity`: in a group, the users who posted in `chat` during the
     * period, with their message counts, most first, at most 25; every user
     * left out has no more messages than any user listed.
     */
    method CmdActivity(chat: Option<ChatType>, chatId: int, args: seq<string>, now: int) returns (r: ActivityReply)
      ensures !InGroup(chat) ==> r == ActivityUseInGroup
      ensures InGroup(chat) ==> r.Listing? && r.period == Period(args)
      ensures r.Listing? ==> TopPosters(activity, chatId, PeriodSince(r.period, now), r.rows, ActivityLimit)
    {
      if !InGroup(chat) {
        return ActivityUseInGroup;
      }
      var period := Period(args);
      var since := PeriodSince(period, now);
      var all := ListPosters(chatId, since);
      ListingPrefix(activity, chatId, since, all, ActivityLimit);
      r := Listing(period, all[..if |all| < ActivityLimit then |all| else ActivityLimit]);
    }
  }
}
