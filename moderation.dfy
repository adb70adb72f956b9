/**
 * The moderation decisions of `MultipurposeBot` (the effective definitions
 * only): who is immune from a warning, how a warning escalates to a strike
 * and then a ban or a mute, and how the group settings are clamped and
 * toggled by the config buttons and the `/set...` and `/lock` commands.
 * Every function here is pure; `moderation_commands.dfy` runs them against
 * the store.
 */
module Moderation {
  import opened Common
  import opened PyStr
  import opened AssumedStore

  // ----- administrators and immunity -----

  /** One entry of `get_chat_administrators`. */
  datatype Admin = Admin(userId: int, status: string)

  function AdminIds(admins: seq<Admin>): set<int> {
    set i | 0 <= i < |admins| :: admins[i].userId
  }

  /** `_is_group_admin`: the user is one of the administrators; a failed fetch (`None`) means no. */
  predicate IsGroupAdmin(admins: Option<seq<Admin>>, user: int)
    ensures IsGroupAdmin(admins, user) <==>
      admins.Some? && exists i :: 0 <= i < |admins.value| && admins.value[i].userId == user
  {
    admins.Some? && user in AdminIds(admins.value)
  }

  /** The first administrator whose status is `'creator'`. */
  function OwnerOf(admins: seq<Admin>): (r: Option<int>)
    ensures r.Some? ==> r.value in AdminIds(admins)
    ensures r.None? <==> forall i :: 0 <= i < |admins| ==> admins[i].status != "creator"
    ensures r.Some? ==> exists i :: (0 <= i < |admins| && admins[i].status == "creator" && admins[i].userId == r.value
                                     && forall j :: 0 <= j < i ==> admins[j].status != "creator")
  {
    if admins == [] then None
    else if admins[0].status == "creator" then Some(admins[0].userId)
    else
      var r := OwnerOf(admins[1..]);
      assert r.Some? ==> exists i :: 0 <= i < |admins[1..]| && admins[1..][i].userId == r.value;
      assert forall i :: 0 < i < |admins| ==> admins[i] == admins[1..][i - 1];
      r
  }

  /** Why a target may not be warned, in the order `_has_immunity` checks. */
  datatype Immunity = NotImmune | IsIssuer | IsBot | IsOwner | IsAdmin

  /**
   * `_has_immunity`: the issuer, the bot (when its id is known and truthy),
   * the owner and any administrator are immune, checked in that order; a
   * failed administrator fetch (`None`) protects nobody beyond the first two.
   */
  function HasImmunity(target: int, issuer: int, botId: Option<int>, admins: Option<seq<Admin>>): (r: Immunity)
    ensures r != NotImmune <==>
      target == issuer || (Truthy(botId) && target == botId.value) || IsGroupAdmin(admins, target)
    ensures r == IsIssuer <==> target == issuer
    ensures r == IsBot <==> target != issuer && Truthy(botId) && target == botId.value
    ensures r == IsOwner <==> (target != issuer && !(Truthy(botId) && target == botId.value)
                               && admins.Some? && Truthy(OwnerOf(admins.value)) && target == OwnerOf(admins.value).value)
    ensures r == IsAdmin <==> (target != issuer && !(Truthy(botId) && target == botId.value)
                               && !(admins.Some? && Truthy(OwnerOf(admins.value)) && target == OwnerOf(admins.value).value)
                               && IsGroupAdmin(admins, target))
  {
    var ids := if admins.Some? then AdminIds(admins.value) else {};
    var owner := if admins.Some? then OwnerOf(admins.value) else None;
    if target == issuer then IsIssuer
    else if Truthy(botId) && target == botId.value then IsBot
    else if Truthy(owner) && target == owner.value then IsOwner
    else if target in ids then IsAdmin
    else NotImmune
  }

  // ----- target and reason -----

  /**
   * `_parse_target_user`: the sender of the replied-to message, otherwise
   * `int(args[0])`, otherwise nobody.
   */
  function ParseTargetUser(reply: ReplyTo, args: seq<string>): (r: Option<int>)
    ensures reply.ReplyTo? ==> r == reply.fromUser
    ensures reply.NoReply? && r.Some? ==> args != [] && ParseInt(args[0]) == r
    ensures reply.NoReply? && args == [] ==> r.None?
  {
    if reply.ReplyTo? then reply.fromUser
    else if |args| > 0 then ParseInt(args[0])
    else None
  }

  /** Without a reply, `/warn <id> ...` targets exactly that id. */
  lemma TargetById(n: int, rest: seq<string>)
    ensures ParseTargetUser(NoReply, [IntToString(n)] + rest) == Some(n)
  {
    ParseIntToString(n);
  }

  /**
   * The reason `warn_command` passes on: every argument when the target
   * comes from a reply, the arguments after the id otherwise, and `None`
   * when that leaves nothing.
   */
  function WarnReason(reply: ReplyTo, args: seq<string>): (r: Option<string>)
    ensures r.Some? ==> r.value != ""
    ensures r.Some? ==> args != [] && (reply.NoReply? ==> |args| > 1)
  {
    var text := if reply.ReplyTo? && |args| > 0 then Join(" ", args)
                else if |args| > 1 then Join(" ", args[1..])
                else "";
    if text == "" then None else Some(text)
  }

  /** For command arguments (non-empty, space-free words) the reason holds exactly the words not used as the target. */
  lemma ReasonKeepsWords(reply: ReplyTo, args: seq<string>)
    requires forall i :: 0 <= i < |args| ==> args[i] != [] && NoSpace(args[i])
    ensures var kept := if reply.ReplyTo? then args else if args == [] then [] else args[1..];
      && (WarnReason(reply, args).None? <==> kept == [])
      && (WarnReason(reply, args).Some? ==> Words(WarnReason(reply, args).value) == kept)
  {
    var kept := if reply.ReplyTo? then args else if args == [] then [] else args[1..];
    WordsJoin(kept);
    if reply.ReplyTo? && |args| > 0 {
      assert Join(" ", args) != "" by {
        assert Words(Join(" ", args)) == args;
      }
    } else if !reply.ReplyTo? && |args| > 1 {
      assert Join(" ", args[1..]) != "" by {
        assert Words(Join(" ", args[1..])) == args[1..];
      }
    }
  }

  // ----- escalation -----

  /** What reaching the threshold does: a ban attempt, or a mute for `minutes` whose restrict call succeeded or not. */
  datatype Enforcement = Ban(banned: bool) | Mute(minutes: int, muted: bool)

  /**
   * What one counted warning led to: the "Warned" reply raised (`ReplyRaised`,
   * so nothing after it ran), the count stayed below the threshold, or a
   * strike with its enforcement.
   */
  datatype Escalation = ReplyRaised | BelowThreshold | Escalated(strikes: int, action: Enforcement, cleared: bool)

  /** `bool(gs.get('auto_ban_on_repeat', 1))` */
  predicate AutoBan(gs: map<string, int>) {
    Get(gs, AutoBanKey, 1) != 0
  }

  /** `bool(gs.get('strikes_reset_on_mute', 1))` */
  predicate ResetOnMute(gs: map<string, int>) {
    Get(gs, ResetOnMuteKey, 1) != 0
  }

  /**
   * One counted warning of `key` under the settings `gs`, after the target
   * passed every check: the new count is stored, then the "Warned" reply
   * goes out (`replyOk`; it stands outside any `try`, so when it raises the
   * handler stops with only the count raised). At the threshold exactly one
   * strike follows and exactly one of ban or mute. The ban branch clears the
   * warnings whether or not the ban call succeeded (the clear is in a try
   * of its own); the mute branch clears them only when resetting is on and
   * the restrict call succeeded. Strikes are never cleared.
   */
  function Escalate(l: Ledger, key: (int, int), gs: map<string, int>, replyOk: bool, banOk: bool, muteOk: bool)
    : (r: (Ledger, int, Escalation))
    requires WarnThresholdKey in gs && MuteMinutesKey in gs
    ensures r.1 == Get(l.warns, key, 0) + 1
    ensures r.2 == ReplyRaised <==> !replyOk
    ensures r.2 == BelowThreshold <==> replyOk && r.1 < gs[WarnThresholdKey]
    ensures !r.2.Escalated? ==> r.0 == l.(warns := l.warns[key := r.1])
    ensures r.2.Escalated? ==>
      && r.2.strikes == Get(l.strikes, key, 0) + 1
      && r.0.strikes == l.strikes[key := r.2.strikes]
      && (r.2.action.Ban? <==> AutoBan(gs) && r.2.strikes >= 2)
      && (r.2.action.Ban? ==> r.2.action.banned == banOk)
      && (r.2.action.Mute? ==> r.2.action == Mute(gs[MuteMinutesKey], muteOk))
      && (r.2.cleared <==> r.2.action.Ban? || (muteOk && ResetOnMute(gs)))
      && r.0.warns == if r.2.cleared then l.warns - {key} else l.warns[key := r.1]
  {
    var count := Get(l.warns, key, 0) + 1;
    var warned := l.(warns := l.warns[key := count]);
    if !replyOk then
      (warned, count, ReplyRaised)
    else if count >= gs[WarnThresholdKey] then
      var strikes := Get(l.strikes, key, 0) + 1;
      var struck := warned.(strikes := l.strikes[key := strikes]);
      if AutoBan(gs) && strikes >= 2 then
        (struck.(warns := l.warns - {key}), count, Escalated(strikes, Ban(banOk), true))
      else
        var clear := muteOk && ResetOnMute(gs);
        (if clear then struck.(warns := l.warns - {key}) else struck, count,
         Escalated(strikes, Mute(gs[MuteMinutesKey], muteOk), clear))
    else
      (warned, count, BelowThreshold)
  }

  /** The reply of `/warn`. */
  datatype WarnReply =
    | UseInGroup
    | AdminsOnly
    | NeedTarget
    | Immune(why: Immunity)
    | Warned(target: int, count: int, threshold: int, reason: Option<string>, escalation: Escalation)

  /**
   * `warn_command`: the group check, the issuer's admin check, the target,
   * immunity, then one escalation step. Only a `Warned` reply changes the
   * ledger.
   */
  function WarnOutcome(l: Ledger, gs: map<string, int>, inGroup: bool, chat: int, issuer: int,
                       admins: Option<seq<Admin>>, botId: Option<int>, reply: ReplyTo, args: seq<string>,
                       replyOk: bool, banOk: bool, muteOk: bool): (r: (Ledger, WarnReply))
    requires WarnThresholdKey in gs && MuteMinutesKey in gs
    ensures r.1.Warned? <==>
      && inGroup && IsGroupAdmin(admins, issuer)
      && ParseTargetUser(reply, args).Some?
      && HasImmunity(ParseTargetUser(reply, args).value, issuer, botId, admins) == NotImmune
    ensures !r.1.Warned? ==> r.0 == l
    ensures r.1.Warned? ==>
      && r.1.target == ParseTargetUser(reply, args).value
      && r.1.target != issuer && !IsGroupAdmin(admins, r.1.target)
      && (r.0, r.1.count, r.1.escalation) == Escalate(l, (chat, r.1.target), gs, replyOk, banOk, muteOk)
  {
    if !inGroup then (l, UseInGroup)
    else if !IsGroupAdmin(admins, issuer) then (l, AdminsOnly)
    else
      var target := ParseTargetUser(reply, args);
      if target.None? then (l, NeedTarget)
      else
        var why := HasImmunity(target.value, issuer, botId, admins);
        if why != NotImmune then (l, Immune(why))
        else
          var e := Escalate(l, (chat, target.value), gs, replyOk, banOk, muteOk);
          (e.0, Warned(target.value, e.1, gs[WarnThresholdKey], WarnReason(reply, args), e.2))
  }

  /** `/warn` never lowers a strike count, and raises at most the target's, by at most one. */
  lemma {:induction false} StrikesOnlyGrow(l: Ledger, gs: map<string, int>, inGroup: bool, chat: int, issuer: int,
                            admins: Option<seq<Admin>>, botId: Option<int>, reply: ReplyTo, args: seq<string>,
                            replyOk: bool, banOk: bool, muteOk: bool, k: (int, int))
    requires WarnThresholdKey in gs && MuteMinutesKey in gs
    ensures var r := WarnOutcome(l, gs, inGroup, chat, issuer, admins, botId, reply, args, replyOk, banOk, muteOk);
      && Get(l.strikes, k, 0) <= Get(r.0.strikes, k, 0) <= Get(l.strikes, k, 0) + 1
      && (Get(r.0.strikes, k, 0) != Get(l.strikes, k, 0) ==> r.1.Warned? && k == (chat, r.1.target))
  {
    var r := WarnOutcome(l, gs, inGroup, chat, issuer, admins, botId, reply, args, replyOk, banOk, muteOk);
    if r.1.Warned? {
      var e := Escalate(l, (chat, r.1.target), gs, replyOk, banOk, muteOk);
      assert r.0 == e.0;
    }
  }

  /**
   * With resetting on and every restrict call succeeding, a stored warning
   * count below the threshold stays below it as long as the "Warned" reply
   * goes out: the warning that reaches the threshold is always cleared.
   * When the reply raises, the count is raised by one and nothing clears it,
   * so it can reach the threshold and stay there without a strike.
   */
  lemma {:induction false} WarnsStayBelowThreshold(l: Ledger, key: (int, int), gs: map<string, int>, replyOk: bool, banOk: bool)
    requires WarnThresholdKey in gs && MuteMinutesKey in gs && ResetOnMute(gs)
    requires 1 <= gs[WarnThresholdKey] && Get(l.warns, key, 0) < gs[WarnThresholdKey]
    ensures replyOk ==> Get(Escalate(l, key, gs, replyOk, banOk, true).0.warns, key, 0) < gs[WarnThresholdKey]
    ensures !replyOk && Get(l.warns, key, 0) + 1 == gs[WarnThresholdKey] ==>
      var r := Escalate(l, key, gs, replyOk, banOk, true);
      Get(r.0.warns, key, 0) == gs[WarnThresholdKey] && r.0.strikes == l.strikes
  {
    var r := Escalate(l, key, gs, replyOk, banOk, true);
    if r.2.Escalated? {
      assert key !in r.0.warns;
    } else {
      assert r.0.warns[key] == r.1;
    }
  }

  /**
   * With the default settings (threshold 3, auto-ban and resetting on),
   * the third warning of a user mutes them with strike 1 and clears the
   * count; three more warnings bring strike 2 and a ban.
   */
  lemma EscalationScenario(banOk: bool)
    ensures var gs := Defaults();
      var k := (100, 55);
      var w1 := Escalate(Ledger(map[], map[]), k, gs, true, banOk, true);
      var w2 := Escalate(w1.0, k, gs, true, banOk, true);
      var w3 := Escalate(w2.0, k, gs, true, banOk, true);
      var w4 := Escalate(w3.0, k, gs, true, banOk, true);
      var w5 := Escalate(w4.0, k, gs, true, banOk, true);
      var w6 := Escalate(w5.0, k, gs, true, banOk, true);
      && w1.2 == BelowThreshold && w2.2 == BelowThreshold
      && w3.1 == 3 && w3.2 == Escalated(1, Mute(10, true), true)
      && w4.2 == BelowThreshold && w5.2 == BelowThreshold
      && w6.1 == 3 && w6.2 == Escalated(2, Ban(banOk), true)
      && w6.0 == Ledger(map[], map[k := 2])
  {
    var gs := Defaults();
    var k := (100, 55);
    assert gs[WarnThresholdKey] == 3 && gs[MuteMinutesKey] == 10 && AutoBan(gs) && ResetOnMute(gs);
    var w1 := Escalate(Ledger(map[], map[]), k, gs, true, banOk, true);
    assert w1.0 == Ledger(map[k := 1], map[]);
    var w2 := Escalate(w1.0, k, gs, true, banOk, true);
    assert w2.0 == Ledger(map[k := 2], map[]);
    var w3 := Escalate(w2.0, k, gs, true, banOk, true);
    assert w3.0 == Ledger(map[], map[k := 1]);
    var w4 := Escalate(w3.0, k, gs, true, banOk, true);
    assert w4.0 == Ledger(map[k := 1], map[k := 1]);
    var w5 := Escalate(w4.0, k, gs, true, banOk, true);
    assert w5.0 == Ledger(map[k := 2], map[k := 1]);
    var w6 := Escalate(w5.0, k, gs, true, banOk, true);
    assert w6.0 == Ledger(map[], map[k := 2]);
  }

  // ----- automatic warnings (links and media locks) -----

  /**
   * What followed an automatic warning: its notice raised (`NoticeRaised`),
   * no mute, or a mute with its minutes and whether the restrict call (and
   * the notice sent right after it) succeeded.
   */
  datatype AutoMute = NoticeRaised | NoMute | AutoMuted(minutes: int, muted: bool, cleared: bool)

  /** `int(gs.get(key, default) or default)`: a missing or zero setting reads as the default. */
  function SettingOr(gs: map<string, int>, key: string, default: int): (r: int)
    ensures default != 0 ==> r != 0
    ensures key in gs && gs[key] != 0 ==> r == gs[key]
    ensures (key !in gs || gs[key] == 0) && default != 0 ==> r == default
  {
    var v := Get(gs, key, default);
    if v == 0 then default else v
  }

  /**
   * The warning the group message handler issues for a link or a locked
   * media type: one more warning, then the "Warning n/t" notice
   * (`noticeOk`; when it raises, the surrounding `except` ends the branch
   * with only the count raised), and at the threshold (3 when unset or 0) a
   * mute, with the count cleared when resetting is on and the mute
   * succeeded. No strike is ever added on this path.
   */
  function AutoWarn(l: Ledger, key: (int, int), gs: map<string, int>, noticeOk: bool, muteOk: bool)
    : (r: (Ledger, int, AutoMute))
    ensures r.0.strikes == l.strikes
    ensures r.1 == Get(l.warns, key, 0) + 1
    ensures r.2 == NoticeRaised <==> !noticeOk
    ensures r.2.AutoMuted? <==> noticeOk && r.1 >= SettingOr(gs, WarnThresholdKey, 3)
    ensures r.2.AutoMuted? ==>
      && r.2.muted == muteOk && r.2.minutes == SettingOr(gs, MuteMinutesKey, 10)
      && (r.2.cleared <==> muteOk && ResetOnMute(gs))
    ensures r.0.warns == if r.2.AutoMuted? && r.2.cleared then l.warns - {key} else l.warns[key := r.1]
  {
    var count := Get(l.warns, key, 0) + 1;
    if !noticeOk then
      (l.(warns := l.warns[key := count]), count, NoticeRaised)
    else if count >= SettingOr(gs, WarnThresholdKey, 3) then
      var clear := muteOk && ResetOnMute(gs);
      (if clear then l.(warns := l.warns - {key}) else l.(warns := l.warns[key := count]), count,
       AutoMuted(SettingOr(gs, MuteMinutesKey, 10), muteOk, clear))
    else
      (l.(warns := l.warns[key := count]), count, NoMute)
  }

  // ----- media locks -----

  /** The settings keys of the media locks, in the order the handler checks them. */
  const LockKeys: seq<string> := ["lock_photos", "lock_videos", "lock_gifs", "lock_stickers",
                                   "lock_documents", "lock_voice", "lock_audio", "lock_forwards"]

  /** Which media types a message carries (a forward is recognised by its forward date or origin). */
  datatype Media = Media(photo: bool, video: bool, animation: bool, sticker: bool,
                         document: bool, voice: bool, audio: bool, forwarded: bool)

  /** The `present` flags of `media_checks`, position by position with `LockKeys`. */
  function Present(m: Media): (r: seq<bool>)
    ensures |r| == |LockKeys|
  {
    [m.photo, m.video, m.animation, m.sticker, m.document, m.voice, m.audio, m.forwarded]
  }

  /** Media type `i` is present and locked: `present and gs.get(key, 0)`. */
  predicate LockHit(present: seq<bool>, gs: map<string, int>, i: int)
    requires |present| == |LockKeys|
  {
    0 <= i < |LockKeys| && present[i] && Get(gs, LockKeys[i], 0) != 0
  }

  /** The first locked media type the message carries, from position `from` on. */
  function FirstLockHit(present: seq<bool>, gs: map<string, int>, from: nat): (r: Option<nat>)
    requires |present| == |LockKeys| && from <= |LockKeys|
    ensures r.Some? ==> from <= r.value < |LockKeys| && LockHit(present, gs, r.value)
    ensures forall j :: from <= j < |LockKeys| && (r.None? || j < r.value) ==> !LockHit(present, gs, j)
    decreases |LockKeys| - from
  {
    if from == |LockKeys| then None
    else if LockHit(present, gs, from) then Some(from)
    else FirstLockHit(present, gs, from + 1)
  }

  /** The reason a media warning records: the lock key without its `lock_` prefix. */
  function LockReason(i: nat): string
    requires i < |LockKeys|
  {
    LockKeys[i][5..]
  }

  // ----- the config buttons -----

  /** `max(lo, min(hi, v))` */
  function Clamp(lo: int, hi: int, v: int): (r: int)
    requires lo <= hi
    ensures lo <= r <= hi
    ensures lo <= v <= hi ==> r == v
    ensures v < lo ==> r == lo
    ensures v > hi ==> r == hi
  {
    if v < lo then lo else if v > hi then hi else v
  }

  const WarnMax := 10
  const ConfigMuteMax := 10080

  /**
   * `group_config_callback` on data `gc:<action>:<key>`: the one setting
   * it writes, if any. `toggle` flips a key between 0 and 1; `inc`/`dec`
   * step the warn threshold within [1, 10] and the mute minutes within
   * [1, 10080] and write any other key back unchanged; every other action
   * (and a missing or empty key) writes nothing.
   */
  function ConfigWrite(gs: map<string, int>, data: string): (w: Option<(string, int)>)
    ensures var parts := SplitOn(data, ':');
      w.Some? ==>
        && |parts| > 2 && parts[2] != "" && w.value.0 == parts[2]
        && (parts[1] == "toggle" || parts[1] == "inc" || parts[1] == "dec")
    ensures w.Some? && SplitOn(data, ':')[1] == "toggle" ==>
      0 <= w.value.1 <= 1 && (w.value.1 == 1 <==> Get(gs, w.value.0, 0) == 0)
    ensures w.Some? && SplitOn(data, ':')[1] != "toggle" ==>
      var was := Get(gs, w.value.0, 0);
      && (w.value.0 == WarnThresholdKey ==> 1 <= w.value.1 <= WarnMax && (1 <= was <= WarnMax ==> -1 <= w.value.1 - was <= 1))
      && (w.value.0 == MuteMinutesKey ==> 1 <= w.value.1 <= ConfigMuteMax && (1 <= was <= ConfigMuteMax ==> -1 <= w.value.1 - was <= 1))
      && (w.value.0 != WarnThresholdKey && w.value.0 != MuteMinutesKey ==> w.value.1 == was)
  {
    var parts := SplitOn(data, ':');
    if |parts| < 2 then None
    else
      var action := parts[1];
      var key := if |parts| > 2 then parts[2] else "";
      if action == "toggle" && key != "" then
        Some((key, if Get(gs, key, 0) != 0 then 0 else 1))
      else if (action == "inc" || action == "dec") && key != "" then
        var v := Get(gs, key, 0);
        var d := if action == "inc" then 1 else -1;
        Some((key, if key == WarnThresholdKey then Clamp(1, WarnMax, v + d)
                   else if key == MuteMinutesKey then Clamp(1, ConfigMuteMax, v + d)
                   else v))
      else None
  }

  /** Pressing the same toggle button twice restores a 0/1 setting. */
  lemma {:induction false} ToggleTwice(gs: map<string, int>, data: string)
    requires ConfigWrite(gs, data).Some? && SplitOn(data, ':')[1] == "toggle"
    requires var k := ConfigWrite(gs, data).value.0; Get(gs, k, 0) == 0 || Get(gs, k, 0) == 1
    ensures var w := ConfigWrite(gs, data).value;
      ConfigWrite(gs[w.0 := w.1], data) == Some((w.0, Get(gs, w.0, 0)))
  {
    var w := ConfigWrite(gs, data).value;
    var parts := SplitOn(data, ':');
    assert w.0 == parts[2];
    assert Get(gs[w.0 := w.1], w.0, 0) == w.1;
  }

  /** The callback data of the two "Lock all" buttons of the config keyboard. */
  function LockAllButton(on: bool): string {
    if on then "gc:lockall:on" else "gc:lockall:off"
  }

  lemma LockAllButtonParts(on: bool)
    ensures SplitOn(LockAllButton(on), ':') == ["gc", "lockall", if on then "on" else "off"]
  {
    if on {
      assert LockAllButton(on) == "gc" + [':'] + "lockall" + [':'] + "on";
      SplitOnThree("gc", "lockall", "on", ':');
    } else {
      assert LockAllButton(on) == "gc" + [':'] + "lockall" + [':'] + "off";
      SplitOnThree("gc", "lockall", "off", ':');
    }
  }

  /** As written, the "Lock all ON" and "Lock all OFF" buttons write nothing: `lockall` has no branch. */
  lemma LockAllButtonIgnored(gs: map<string, int>, on: bool)
    ensures ConfigWrite(gs, LockAllButton(on)) == None
  {
    LockAllButtonParts(on);
    UnknownActionIgnored(gs, LockAllButton(on));
  }

  /** Any action other than `toggle`, `inc` and `dec` writes nothing. */
  lemma UnknownActionIgnored(gs: map<string, int>, data: string)
    requires var parts := SplitOn(data, ':');
      |parts| >= 2 && parts[1] != "toggle" && parts[1] != "inc" && parts[1] != "dec"
    ensures ConfigWrite(gs, data) == None
  {
  }

  /**
   * The settings writes the config callback evidently intends: a "Lock all"
   * button does what `/lockall on|off` does; every other button writes what
   * `ConfigWrite` writes.
   */
  function IntendedConfigWrites(gs: map<string, int>, data: string): seq<(string, int)> {
    var parts := SplitOn(data, ':');
    if |parts| > 2 && parts[1] == "lockall" && (parts[2] == "on" || parts[2] == "off") then
      LockAllWrites(if parts[2] == "on" then 1 else 0)
    else if ConfigWrite(gs, data).Some? then [ConfigWrite(gs, data).value]
    else []
  }

  /** Writing `value` under every media lock key, in `LockKeys` order. */
  function LockAllWrites(value: int): (ws: seq<(string, int)>)
    ensures |ws| == |LockKeys|
    ensures forall i :: 0 <= i < |ws| ==> ws[i] == (LockKeys[i], value)
  {
    seq(|LockKeys|, i requires 0 <= i < |LockKeys| => (LockKeys[i], value))
  }

  /** The settings of `chat` after the writes `ws`, in order. */
  function ApplyWrites(stored: map<int, map<string, int>>, chat: int, ws: seq<(string, int)>): map<int, map<string, int>>
    decreases |ws|
  {
    if ws == [] then stored else ApplyWrites(WriteSetting(stored, chat, ws[0].0, ws[0].1), chat, ws[1..])
  }

  /** Writes to other keys leave a key's value as it was. */
  lemma {:induction false} ApplyWritesUntouched(stored: map<int, map<string, int>>, chat: int, ws: seq<(string, int)>, k: string)
    requires forall i :: 0 <= i < |ws| ==> ws[i].0 != k
    ensures Get(Effective(ApplyWrites(stored, chat, ws), chat), k, 0) == Get(Effective(stored, chat), k, 0)
    decreases |ws|
  {
    if ws != [] {
      assert forall i :: 0 <= i < |ws[1..]| ==> ws[1..][i] == ws[i + 1];
      ApplyWritesUntouched(WriteSetting(stored, chat, ws[0].0, ws[0].1), chat, ws[1..], k);
    }
  }

  /** When every write stores `v`, each key written holds `v` afterwards. */
  lemma {:induction false} ApplyWritesUniform(stored: map<int, map<string, int>>, chat: int, ws: seq<(string, int)>, v: int, i: nat)
    requires i < |ws| && forall j :: 0 <= j < |ws| ==> ws[j].1 == v
    ensures Get(Effective(ApplyWrites(stored, chat, ws), chat), ws[i].0, 0) == v
    decreases |ws|
  {
    var k := ws[i].0;
    var next := WriteSetting(stored, chat, ws[0].0, ws[0].1);
    assert forall j :: 0 <= j < |ws[1..]| ==> ws[1..][j] == ws[j + 1];
    if i > 0 {
      ApplyWritesUniform(next, chat, ws[1..], v, i - 1);
    } else if j :| 0 <= j < |ws[1..]| && ws[1..][j].0 == k {
      ApplyWritesUniform(next, chat, ws[1..], v, j);
    } else {
      ApplyWritesUntouched(next, chat, ws[1..], k);
      ReadAfterWrite(stored, chat, k, ws[0].1, chat);
    }
  }

  /** With the intended writes, data `gc:lockall:on|off` writes its value under every lock key. */
  lemma IntendedLockAllDataWrites(gs: map<string, int>, data: string, on: bool)
    requires SplitOn(data, ':') == ["gc", "lockall", if on then "on" else "off"]
    ensures IntendedConfigWrites(gs, data) == LockAllWrites(if on then 1 else 0)
  {
    if !on {
      assert "off" != "on";
    }
  }

  lemma IntendedLockAllButtonWrites(gs: map<string, int>, on: bool)
    ensures IntendedConfigWrites(gs, LockAllButton(on)) == LockAllWrites(if on then 1 else 0)
  {
    LockAllButtonParts(on);
    IntendedLockAllDataWrites(gs, LockAllButton(on), on);
  }

  /** With the intended writes, "Lock all ON" turns every media lock on and "Lock all OFF" turns every one off. */
  lemma IntendedLockAllSetsEveryLock(stored: map<int, map<string, int>>, chat: int, on: bool, i: nat)
    requires i < |LockKeys|
    ensures var gs := Effective(stored, chat);
      Get(Effective(ApplyWrites(stored, chat, IntendedConfigWrites(gs, LockAllButton(on))), chat), LockKeys[i], 0)
        == if on then 1 else 0
  {
    IntendedLockAllButtonWrites(Effective(stored, chat), on);
    var ws := LockAllWrites(if on then 1 else 0);
    ApplyWritesUniform(stored, chat, ws, if on then 1 else 0, i);
  }

  // ----- the /set... commands -----

  /** The greatest mute length `/setmute` accepts. */
  const SetMuteMax := 1440

  /** `setwarns_command` with arguments: the clamped threshold to write, or `None` when `int()` fails. */
  function SetWarnsValue(args: seq<string>): (r: Option<int>)
    requires args != []
    ensures r.Some? <==> ParseInt(args[0]).Some?
    ensures r.Some? ==> 1 <= r.value <= WarnMax
  {
    match ParseInt(args[0])
    case None => None
    case Some(v) => Some(Clamp(1, WarnMax, v))
  }

  /** `/setwarns n` for `n` in [1, 10] writes exactly `n`; a larger `n` writes 10. */
  lemma SetWarnsExact(n: int, rest: seq<string>)
    ensures 1 <= n <= WarnMax ==> SetWarnsValue([IntToString(n)] + rest) == Some(n)
    ensures n > WarnMax ==> SetWarnsValue([IntToString(n)] + rest) == Some(WarnMax)
  {
    ParseIntToString(n);
  }

  /** `setmute_command` with arguments, as written: the value clamped to [1, 1440]. */
  function SetMuteValue(args: seq<string>): (r: Option<int>)
    requires args != []
    ensures r.Some? <==> ParseInt(args[0]).Some?
    ensures r.Some? ==> 1 <= r.value <= SetMuteMax
  {
    match ParseInt(args[0])
    case None => None
    case Some(v) => Some(Clamp(1, SetMuteMax, v))
  }

  /** As written, `/setmute 10080`, the largest value the config help advertises, stores 1440. */
  lemma SetMuteCutsAdvertisedMax()
    ensures SetMuteValue([IntToString(ConfigMuteMax)]) == Some(SetMuteMax)
  {
    ParseIntToString(ConfigMuteMax);
  }

  /** `setmute_command` with the range the config help and the config buttons use: [1, 10080]. */
  function IntendedSetMuteValue(args: seq<string>): (r: Option<int>)
    requires args != []
    ensures r.Some? <==> ParseInt(args[0]).Some?
    ensures r.Some? ==> 1 <= r.value <= ConfigMuteMax
  {
    match ParseInt(args[0])
    case None => None
    case Some(v) => Some(Clamp(1, ConfigMuteMax, v))
  }

  /**
   * With the intended range, `/setmute n` stores exactly `n` for every `n`
   * the config buttons can reach, so the command and the buttons agree.
   */
  lemma IntendedSetMuteExact(n: int)
    requires 1 <= n <= ConfigMuteMax
    ensures IntendedSetMuteValue([IntToString(n)]) == Some(n)
  {
    ParseIntToString(n);
  }

  /**
   * `setautoban_command` and `setresetwarns_command`: `on`/`off` (any
   * case) set 1/0; anything else, or no argument, flips the current value
   * (`current` is `gs.get(key, 1)`).
   */
  function SetFlagValue(args: seq<string>, current: int): (r: int)
    ensures r == 0 || r == 1
    ensures args != [] && Lower(args[0]) == "on" ==> r == 1
    ensures args != [] && Lower(args[0]) == "off" ==> r == 0
    ensures (args == [] || (Lower(args[0]) != "on" && Lower(args[0]) != "off")) ==> (r == 1 <==> current == 0)
  {
    if args != [] && (Lower(args[0]) == "on" || Lower(args[0]) == "off") then
      (if Lower(args[0]) == "on" then 1 else 0)
    else if current != 0 then 0 else 1
  }

  /** The effective `antilinks_command`: flips `gs.get('anti_links', 0)`. */
  function AntiLinksValue(gs: map<string, int>): (r: int)
    ensures r == 0 || r == 1
    ensures r == 1 <==> Get(gs, AntiLinksKey, 0) == 0
  {
    if Get(gs, AntiLinksKey, 0) != 0 then 0 else 1
  }

  // ----- /lock and /lockall -----

  /** The mapping of `_normalize_lock_key`, on an already stripped and lowered word. */
  function LockAlias(t: string): (r: Option<string>)
    ensures r.Some? ==> r.value in LockKeys
  {
    if t == "photo" || t == "photos" then Some("lock_photos")
    else if t == "video" || t == "videos" then Some("lock_videos")
    else if t == "gif" || t == "gifs" || t == "animation" then Some("lock_gifs")
    else if t == "sticker" || t == "stickers" then Some("lock_stickers")
    else if t == "document" || t == "documents" || t == "doc" then Some("lock_documents")
    else if t == "voice" || t == "ptt" then Some("lock_voice")
    else if t == "audio" || t == "music" then Some("lock_audio")
    else if t == "forward" || t == "forwards" || t == "fw" then Some("lock_forwards")
    else None
  }

  /** `_normalize_lock_key`: strip, lower, then look the word up. */
  function NormalizeLockKey(t: string): (r: Option<string>)
    ensures r.Some? ==> r.value in LockKeys
  {
    LockAlias(Lower(Strip(t)))
  }

  /** A lower-case word without spaces is looked up as it is. */
  lemma CanonicalLockName(s: string, key: string)
    requires (forall i :: 0 <= i < |s| ==> 'a' <= s[i] <= 'z') && LockAlias(s) == Some(key)
    ensures NormalizeLockKey(s) == Some(key)
  {
    StripNoSpace(s);
    LowerOfLowercase(s);
  }

  /** Every lock key's own name (`photos`, `voice`, ...) normalises back to that key. */
  lemma LockNamesRoundTrip()
    ensures forall i :: 0 <= i < |LockKeys| ==> NormalizeLockKey(LockReason(i)) == Some(LockKeys[i])
  {
    forall i | 0 <= i < |LockKeys| ensures NormalizeLockKey(LockReason(i)) == Some(LockKeys[i]) {
      LockReasonLower(i);
      LockReasonAlias(i);
      CanonicalLockName(LockReason(i), LockKeys[i]);
    }
  }

  lemma LockReasonLower(i: nat)
    requires i < |LockKeys|
    ensures forall j :: 0 <= j < |LockReason(i)| ==> 'a' <= LockReason(i)[j] <= 'z'
  {
  }

  /** Each lock key's own name is one of the words `_normalize_lock_key` maps to that key. */
  lemma LockReasonAlias(i: nat)
    requires i < |LockKeys|
    ensures LockAlias(LockReason(i)) == Some(LockKeys[i])
  {
    if i < 2 { AliasPhotosVideos(i); }
    else if i < 4 { AliasGifsStickers(i); }
    else if i < 6 { AliasDocumentsVoice(i); }
    else { AliasAudioForwards(i); }
  }

  lemma AliasPhotosVideos(i: nat)
    requires i < 2
    ensures LockAlias(LockReason(i)) == Some(LockKeys[i])
  {
    if i == 0 { assert LockReason(i) == "photos"; } else { assert LockReason(i) == "videos"; }
  }

  lemma AliasGifsStickers(i: nat)
    requires 2 <= i < 4
    ensures LockAlias(LockReason(i)) == Some(LockKeys[i])
  {
    if i == 2 { assert LockReason(i) == "gifs"; } else { assert LockReason(i) == "stickers"; }
  }

  lemma AliasDocumentsVoice(i: nat)
    requires 4 <= i < 6
    ensures LockAlias(LockReason(i)) == Some(LockKeys[i])
  {
    if i == 4 { assert LockReason(i) == "documents"; } else { assert LockReason(i) == "voice"; }
  }

  lemma AliasAudioForwards(i: nat)
    requires 6 <= i < 8
    ensures LockAlias(LockReason(i)) == Some(LockKeys[i])
  {
    if i == 6 { assert LockReason(i) == "audio"; } else { assert LockReason(i) == "forwards"; }
  }

  /** `/lock <type> <on|off>`: the key and value to write, or `None` for too few arguments or an unknown type. */
  function LockWrite(args: seq<string>): (r: Option<(string, int)>)
    ensures r.Some? ==> |args| >= 2 && r.value.0 in LockKeys && Some(r.value.0) == NormalizeLockKey(args[0])
    ensures r.Some? ==> (r.value.1 == 1 <==> Lower(args[1]) == "on") && (r.value.1 == 0 || r.value.1 == 1)
    ensures r.None? <==> |args| < 2 || NormalizeLockKey(args[0]).None?
  {
    if |args| < 2 then None
    else
      match NormalizeLockKey(args[0])
      case None => None
      case Some(key) => Some((key, if Lower(args[1]) == "on" then 1 else 0))
  }

  /** `/lockall on|off`: the value to write under every lock key, or `None` (usage) for any other argument. */
  function LockAllValue(args: seq<string>): (r: Option<int>)
    ensures r.Some? <==> args != [] && (Lower(args[0]) == "on" || Lower(args[0]) == "off")
    ensures r.Some? ==> (r.value == 1 <==> Lower(args[0]) == "on") && (r.value == 0 || r.value == 1)
  {
    if args == [] || (Lower(args[0]) != "on" && Lower(args[0]) != "off") then None
    else if Lower(args[0]) == "on" then Some(1) else Some(0)
  }

  /** With the intended writes, each "Lock all" button writes exactly what `/lockall on|off` writes. */
  lemma IntendedLockAllMatchesCommand(gs: map<string, int>, on: bool)
    ensures var v := LockAllValue([if on then "on" else "off"]);
      v.Some? && IntendedConfigWrites(gs, LockAllButton(on)) == LockAllWrites(v.value)
  {
    IntendedLockAllButtonWrites(gs, on);
    LockAllWordValue(on);
  }

  /** `/lockall on` reads 1 and `/lockall off` reads 0. */
  lemma LockAllWordValue(on: bool)
    ensures LockAllValue([if on then "on" else "off"]) == Some(if on then 1 else 0)
  {
    var w := if on then "on" else "off";
    assert LowerFixed(w);
    LowerOfLowercase(w);
    LockAllValueOf([w], on);
  }

  lemma LockAllValueOf(args: seq<string>, on: bool)
    requires args != [] && Lower(args[0]) == if on then "on" else "off"
    ensures LockAllValue(args) == Some(if on then 1 else 0)
  {
    if !on {
      assert "off" != "on";
    }
  }
}
