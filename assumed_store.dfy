/**
 * The store operations the four bots call on `Database` that `database.py`
 * does not define: the warning and strike counters, the per-group
 * settings, the users with their referral codes, the events with their
 * event codes, and event membership.
 *
 * Nothing here is derived from code: each body below is the minimal
 * behaviour the bots' use of the operation ASSUMES (a counter returns its
 * stored value plus one, a lookup finds what was stored, a setting write
 * overwrites one key). Code generation is not modelled: a fresh code is
 * an input that the caller guarantees is not yet in use.
 */
module AssumedStore {
  import opened Common

  /** The warning counter and the strike counter of every (chat, user) pair; a missing pair counts as 0. */
  datatype Ledger = Ledger(warns: map<(int, int), int>, strikes: map<(int, int), int>)

  const WarnThresholdKey := "warn_threshold"
  const MuteMinutesKey := "mute_minutes_default"
  const AntiLinksKey := "anti_links"
  const AutoBanKey := "auto_ban_on_repeat"
  const ResetOnMuteKey := "strikes_reset_on_mute"

  /** The settings of a group nobody has configured. */
  function Defaults(): map<string, int> {
    map[WarnThresholdKey := 3, MuteMinutesKey := 10, AntiLinksKey := 0, AutoBanKey := 1, ResetOnMuteKey := 1]
  }

  /**
   * Assumed `get_group_settings(chat)`: the stored settings of `chat` over
   * the defaults, so the five default keys are always present and a stored
   * value always wins.
   */
  function Effective(stored: map<int, map<string, int>>, chat: int): (gs: map<string, int>)
    ensures forall k :: k in Defaults() ==> k in gs
    ensures chat in stored ==> forall k :: k in stored[chat] ==> k in gs && gs[k] == stored[chat][k]
    ensures forall k :: k in gs && (chat !in stored || k !in stored[chat]) ==> k in Defaults() && gs[k] == Defaults()[k]
  {
    if chat in stored then Defaults() + stored[chat] else Defaults()
  }

  /** The settings of one chat after `set_group_setting(chat, key, value)`. */
  function WriteSetting(stored: map<int, map<string, int>>, chat: int, key: string, value: int): map<int, map<string, int>> {
    stored[chat := (if chat in stored then stored[chat] else map[])[key := value]]
  }

  /** Reading back a setting just written yields the value written; other chats keep theirs. */
  lemma ReadAfterWrite(stored: map<int, map<string, int>>, chat: int, key: string, value: int, other: int)
    ensures Effective(WriteSetting(stored, chat, key, value), chat)[key] == value
    ensures other != chat ==> Effective(WriteSetting(stored, chat, key, value), other) == Effective(stored, other)
  {
  }

  /** The moderation tables of `multipurpose_bot.py`. */
  class ModerationStore {
    var ledger: Ledger
    var settings: map<int, map<string, int>>
    /** The (chat, user) pairs handed to `record_activity`, oldest first. */
    var activity: seq<(int, int)>

    constructor()
      ensures ledger == Ledger(map[], map[]) && settings == map[] && activity == []
    {
      ledger := Ledger(map[], map[]);
      settings := map[];
      activity := [];
    }

    function GroupSettings(chat: int): map<string, int>
      reads this
    {
      Effective(settings, chat)
    }

    /** Assumed `increment_warning`: the new count is the stored count plus one. */
    method IncrementWarning(chat: int, user: int) returns (count: int)
      modifies this
      ensures count == Get(old(ledger.warns), (chat, user), 0) + 1
      ensures ledger == old(ledger).(warns := old(ledger.warns)[(chat, user) := count])
      ensures settings == old(settings) && activity == old(activity)
    {
      count := Get(ledger.warns, (chat, user), 0) + 1;
      ledger := ledger.(warns := ledger.warns[(chat, user) := count]);
    }

    /** Assumed `add_strike`: the new strike count is the stored one plus one. */
    method AddStrike(chat: int, user: int) returns (strikes: int)
      modifies this
      ensures strikes == Get(old(ledger.strikes), (chat, user), 0) + 1
      ensures ledger == old(ledger).(strikes := old(ledger.strikes)[(chat, user) := strikes])
      ensures settings == old(settings) && activity == old(activity)
    {
      strikes := Get(ledger.strikes, (chat, user), 0) + 1;
      ledger := ledger.(strikes := ledger.strikes[(chat, user) := strikes]);
    }

    /** Assumed `clear_warnings`: the pair's warning counter restarts from 0; strikes are kept. */
    method ClearWarnings(chat: int, user: int)
      modifies this
      ensures ledger == old(ledger).(warns := old(ledger.warns) - {(chat, user)})
      ensures settings == old(settings) && activity == old(activity)
    {
      ledger := ledger.(warns := ledger.warns - {(chat, user)});
    }

    /** Assumed `set_group_setting`: overwrites one key of one chat. */
    method SetGroupSetting(chat: int, key: string, value: int)
      modifies this
      ensures settings == WriteSetting(old(settings), chat, key, value)
      ensures ledger == old(ledger) && activity == old(activity)
    {
      settings := WriteSetting(settings, chat, key, value);
    }

    /** Assumed `record_activity`: notes one message of `user` in `chat`. */
    method RecordActivity(chat: int, user: int)
      modifies this
      ensures activity == old(activity) + [(chat, user)]
      ensures ledger == old(ledger) && settings == old(settings)
    {
      activity := activity + [(chat, user)];
    }
  }

  /** A row of `users`: the user's own referral code, who referred them, and the event they came through. */
  datatype UserRow = UserRow(code: string, referredBy: Option<int>, eventId: Option<int>)

  /** A row of `events`. */
  datatype EventRow = EventRow(code: string, host: int, title: string, description: Option<string>,
                               groupLink: Option<string>, active: bool)

  /** The users, events and event membership of the referral-contest bots. */
  class ReferralStore {
    var users: map<int, UserRow>
    var userByCode: map<string, int>
    var events: map<int, EventRow>
    var eventByCode: map<string, int>
    /** `event_participants`: (event id, user id) pairs. */
    var participants: set<(int, int)>

    /** Every code names a stored row that carries that code. */
    ghost predicate Valid()
      reads this
    {
      && (forall c :: c in userByCode ==> userByCode[c] in users && users[userByCode[c]].code == c)
      && (forall c :: c in eventByCode ==> eventByCode[c] in events && events[eventByCode[c]].code == c)
    }

    constructor()
      ensures Valid()
      ensures users == map[] && userByCode == map[] && events == map[] && eventByCode == map[] && participants == {}
    {
      users := map[];
      userByCode := map[];
      events := map[];
      eventByCode := map[];
      participants := {};
    }

    /** The `event_code -> id` lookup restricted to active events (`WHERE event_code = ? AND is_active = 1`). */
    function ActiveEventCodes(): (r: map<string, int>)
      reads this
      ensures forall c :: c in r <==> c in eventByCode && eventByCode[c] in events && events[eventByCode[c]].active
      ensures forall c :: c in r ==> r[c] == eventByCode[c]
    {
      map c | c in eventByCode && eventByCode[c] in events && events[eventByCode[c]].active :: eventByCode[c]
    }

    /** Assumed `add_user`: stores a new user under a fresh referral code and returns that code. */
    method AddUser(user: int, referredBy: Option<int>, eventId: Option<int>, freshCode: string) returns (code: string)
      requires Valid() && user !in users && freshCode !in userByCode
      modifies this
      ensures Valid()
      ensures code == freshCode
      ensures users == old(users)[user := UserRow(freshCode, referredBy, eventId)]
      ensures userByCode == old(userByCode)[freshCode := user]
      ensures events == old(events) && eventByCode == old(eventByCode) && participants == old(participants)
    {
      users := users[user := UserRow(freshCode, referredBy, eventId)];
      userByCode := userByCode[freshCode := user];
      code := freshCode;
    }

    /** Assumed `create_event`: stores a new active event under a fresh id and code and returns the code. */
    method CreateEvent(host: int, title: string, description: Option<string>, groupLink: Option<string>,
                       freshId: int, freshCode: string) returns (code: string)
      requires Valid() && freshId !in events && freshCode !in eventByCode
      modifies this
      ensures Valid()
      ensures code == freshCode
      ensures events == old(events)[freshId := EventRow(freshCode, host, title, description, groupLink, true)]
      ensures eventByCode == old(eventByCode)[freshCode := freshId]
      ensures users == old(users) && userByCode == old(userByCode) && participants == old(participants)
    {
      events := events[freshId := EventRow(freshCode, host, title, description, groupLink, true)];
      eventByCode := eventByCode[freshCode := freshId];
      code := freshCode;
    }

    /** Assumed `update_event_group_link`: true, and the link stored, exactly when the event exists. */
    method UpdateEventGroupLink(eventId: Option<int>, link: string) returns (ok: bool)
      requires Valid()
      modifies this
      ensures Valid()
      ensures ok == (eventId.Some? && eventId.value in old(events))
      ensures events == if ok then old(events)[eventId.value := old(events)[eventId.value].(groupLink := Some(link))] else old(events)
      ensures users == old(users) && userByCode == old(userByCode) && eventByCode == old(eventByCode)
      ensures participants == old(participants)
    {
      ok := eventId.Some? && eventId.value in events;
      if ok {
        events := events[eventId.value := events[eventId.value].(groupLink := Some(link))];
      }
    }
  }
}
