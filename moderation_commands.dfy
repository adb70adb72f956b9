/**
 * The moderation handlers of `multipurpose_bot.py` as steps on the store:
 * `/warn`, the settings commands, `/lock` and `/lockall`, the settings
 * buttons, and the handler every group message passes through.
 *
 * Each handler's effect is tied to a function of the old state from
 * `Moderation`; the administrator list is one snapshot (`None` when the
 * fetch failed) and the outcome of each Telegram call whose success
 * matters is an input.
 */
module ModerationCommands {
  import opened Common
  import opened PyStr
  import opened AssumedStore
  import opened Moderation

  lemma DefaultsPresent(gs: map<string, int>, stored: map<int, map<string, int>>, chat: int)
    requires gs == Effective(stored, chat)
    ensures WarnThresholdKey in gs && MuteMinutesKey in gs
  {
    assert WarnThresholdKey in Defaults() && MuteMinutesKey in Defaults();
  }

  /** `warn_command`: the ledger afterwards and the reply are those `WarnOutcome` gives. */
  method WarnCommand(store: ModerationStore, inGroup: bool, chat: int, issuer: int, admins: Option<seq<Admin>>,
                     botId: Option<int>, reply: ReplyTo, args: seq<string>, replyOk: bool, banOk: bool, muteOk: bool)
    returns (r: WarnReply)
    modifies store
    ensures WarnThresholdKey in old(store.GroupSettings(chat)) && MuteMinutesKey in old(store.GroupSettings(chat))
    ensures (store.ledger, r) == WarnOutcome(old(store.ledger), old(store.GroupSettings(chat)), inGroup, chat, issuer,
                                            admins, botId, reply, args, replyOk, banOk, muteOk)
    ensures store.settings == old(store.settings) && store.activity == old(store.activity)
  {
    DefaultsPresent(store.GroupSettings(chat), store.settings, chat);
    if !inGroup {
      return UseInGroup;
    }
    if !IsGroupAdmin(admins, issuer) {
      return AdminsOnly;
    }
    var target := ParseTargetUser(reply, args);
    if target.None? {
      return NeedTarget;
    }
    var why := HasImmunity(target.value, issuer, botId, admins);
    if why != NotImmune {
      return Immune(why);
    }
    var reason := WarnReason(reply, args);
    var count, escalation := EscalateStore(store, chat, target.value, replyOk, banOk, muteOk);
    var gs := store.GroupSettings(chat);
    r := Warned(target.value, count, gs[WarnThresholdKey], reason, escalation);
  }

  /**
   * The counting part of `warn_command` on the store: one more warning,
   * then, unless the "Warned" reply raised, at the threshold one strike and
   * the ban or the mute, with the clears `Escalate` describes.
   */
  method EscalateStore(store: ModerationStore, chat: int, target: int, replyOk: bool, banOk: bool, muteOk: bool)
    returns (count: int, escalation: Escalation)
    modifies store
    ensures WarnThresholdKey in old(store.GroupSettings(chat)) && MuteMinutesKey in old(store.GroupSettings(chat))
    ensures (store.ledger, count, escalation) == Escalate(old(store.ledger), (chat, target), old(store.GroupSettings(chat)),
                                                             replyOk, banOk, muteOk)
    ensures store.settings == old(store.settings) && store.activity == old(store.activity)
  {
    DefaultsPresent(store.GroupSettings(chat), store.settings, chat);
    ghost var l0 := store.ledger;
    ghost var key := (chat, target);
    count := store.IncrementWarning(chat, target);
    var gs := store.GroupSettings(chat);
    assert gs == old(store.GroupSettings(chat));
    if !replyOk {
      return count, ReplyRaised;
    }
    escalation := BelowThreshold;
    if count >= gs[WarnThresholdKey] {
      var strikes := store.AddStrike(chat, target);
      if AutoBan(gs) && strikes >= 2 {
        store.ClearWarnings(chat, target);
        assert store.ledger.warns == l0.warns - {key};
        escalation := Escalated(strikes, Ban(banOk), true);
      } else {
        var cleared := muteOk && ResetOnMute(gs);
        if cleared {
          store.ClearWarnings(chat, target);
          assert store.ledger.warns == l0.warns - {key};
        }
        escalation := Escalated(strikes, Mute(gs[MuteMinutesKey], muteOk), cleared);
      }
    }
  }

  // ----- settings commands -----

  /** What a settings command did: refused, showed the current value, showed usage, or wrote settings. */
  datatype CommandResult =
    | UseInGroupReply
    | AdminsOnlyReply
    | CurrentValue(value: int)
    | UsageReply
    | UnknownTypeReply
    | Wrote(writes: seq<(string, int)>)
    | Silent

  function WritesOf(r: CommandResult): seq<(string, int)> {
    if r.Wrote? then r.writes else []
  }

  /** The effective `setwarns_command`. */
  function SetWarnsCommand(gs: map<string, int>, inGroup: bool, isAdmin: bool, args: seq<string>): (r: CommandResult)
    ensures r.Wrote? <==> inGroup && isAdmin && args != [] && ParseInt(args[0]).Some?
    ensures r.Wrote? ==> r.writes == [(WarnThresholdKey, SetWarnsValue(args).value)] && 1 <= r.writes[0].1 <= WarnMax
    ensures r == CurrentValue(Get(gs, WarnThresholdKey, 3)) <==> inGroup && isAdmin && args == []
  {
    if !inGroup then UseInGroupReply
    else if !isAdmin then AdminsOnlyReply
    else if args == [] then CurrentValue(Get(gs, WarnThresholdKey, 3))
    else match SetWarnsValue(args)
      case None => UsageReply
      case Some(v) => Wrote([(WarnThresholdKey, v)])
  }

  /** The effective `setmute_command`, with its cap of 1440 minutes. */
  function SetMuteCommand(gs: map<string, int>, inGroup: bool, isAdmin: bool, args: seq<string>): (r: CommandResult)
    ensures r.Wrote? <==> inGroup && isAdmin && args != [] && ParseInt(args[0]).Some?
    ensures r.Wrote? ==> r.writes == [(MuteMinutesKey, SetMuteValue(args).value)] && 1 <= r.writes[0].1 <= SetMuteMax
    ensures r == CurrentValue(Get(gs, MuteMinutesKey, 10)) <==> inGroup && isAdmin && args == []
  {
    if !inGroup then UseInGroupReply
    else if !isAdmin then AdminsOnlyReply
    else if args == [] then CurrentValue(Get(gs, MuteMinutesKey, 10))
    else match SetMuteValue(args)
      case None => UsageReply
      case Some(v) => Wrote([(MuteMinutesKey, v)])
  }

  /** `setautoban_command` (`key` is `auto_ban_on_repeat`) and `setresetwarns_command` (`strikes_reset_on_mute`). */
  function SetFlagCommand(gs: map<string, int>, key: string, inGroup: bool, isAdmin: bool, args: seq<string>): (r: CommandResult)
    ensures r.Wrote? <==> inGroup && isAdmin
    ensures r.Wrote? ==> r.writes == [(key, SetFlagValue(args, Get(gs, key, 1)))]
  {
    if !inGroup then UseInGroupReply
    else if !isAdmin then AdminsOnlyReply
    else Wrote([(key, SetFlagValue(args, Get(gs, key, 1)))])
  }

  /** The effective `antilinks_command`. */
  function AntiLinksCommand(gs: map<string, int>, inGroup: bool, isAdmin: bool): (r: CommandResult)
    ensures r.Wrote? <==> inGroup && isAdmin
    ensures r.Wrote? ==> r.writes == [(AntiLinksKey, AntiLinksValue(gs))]
  {
    if !inGroup then UseInGroupReply
    else if !isAdmin then AdminsOnlyReply
    else Wrote([(AntiLinksKey, AntiLinksValue(gs))])
  }

  /** `lock_command`. */
  function LockCommand(inGroup: bool, isAdmin: bool, args: seq<string>): (r: CommandResult)
    ensures r.Wrote? <==> inGroup && isAdmin && LockWrite(args).Some?
    ensures r.Wrote? ==> r.writes == [LockWrite(args).value] && r.writes[0].0 in LockKeys
  {
    if !inGroup then UseInGroupReply
    else if !isAdmin then AdminsOnlyReply
    else if |args| < 2 then UsageReply
    else match LockWrite(args)
      case None => UnknownTypeReply
      case Some(w) => Wrote([w])
  }

  /** `lockall_command`. */
  function LockAllCommand(inGroup: bool, isAdmin: bool, args: seq<string>): (r: CommandResult)
    ensures r.Wrote? <==> inGroup && isAdmin && LockAllValue(args).Some?
    ensures r.Wrote? ==> r.writes == LockAllWrites(LockAllValue(args).value)
  {
    if !inGroup then UseInGroupReply
    else if !isAdmin then AdminsOnlyReply
    else match LockAllValue(args)
      case None => UsageReply
      case Some(v) => Wrote(LockAllWrites(v))
  }

  /** `group_config_callback`: outside a group nothing at all happens. */
  function ConfigCallback(gs: map<string, int>, inGroup: bool, isAdmin: bool, data: string): (r: CommandResult)
    ensures r.Wrote? <==> inGroup && isAdmin && ConfigWrite(gs, data).Some?
    ensures r.Wrote? ==> r.writes == [ConfigWrite(gs, data).value]
  {
    if !inGroup then Silent
    else if !isAdmin then AdminsOnlyReply
    else match ConfigWrite(gs, data)
      case None => Silent
      case Some(w) => Wrote([w])
  }

  /** Writing one more setting at the end of a sequence of writes. */
  lemma {:induction false} ApplyWritesSnoc(stored: map<int, map<string, int>>, chat: int, ws: seq<(string, int)>, w: (string, int))
    ensures ApplyWrites(stored, chat, ws + [w]) == WriteSetting(ApplyWrites(stored, chat, ws), chat, w.0, w.1)
    decreases |ws|
  {
    if ws == [] {
      assert [w][1..] == [];
    } else {
      assert (ws + [w])[1..] == ws[1..] + [w];
      ApplyWritesSnoc(WriteSetting(stored, chat, ws[0].0, ws[0].1), chat, ws[1..], w);
    }
  }

  /** Writes only touch `chat`. */
  lemma {:induction false} ApplyWritesOtherChat(stored: map<int, map<string, int>>, chat: int, ws: seq<(string, int)>, other: int)
    requires other != chat
    ensures Effective(ApplyWrites(stored, chat, ws), other) == Effective(stored, other)
    decreases |ws|
  {
    if ws != [] {
      var next := WriteSetting(stored, chat, ws[0].0, ws[0].1);
      ApplyWritesOtherChat(next, chat, ws[1..], other);
      ReadAfterWrite(stored, chat, ws[0].0, ws[0].1, other);
    }
  }

  /** `set_group_setting` for each write in turn (the `for key in ...` loop of `lockall_command`). */
  method WriteAll(store: ModerationStore, chat: int, ws: seq<(string, int)>)
    modifies store
    ensures store.settings == ApplyWrites(old(store.settings), chat, ws)
    ensures store.ledger == old(store.ledger) && store.activity == old(store.activity)
  {
    for i := 0 to |ws|
      invariant store.settings == ApplyWrites(old(store.settings), chat, ws[..i])
      invariant store.ledger == old(store.ledger) && store.activity == old(store.activity)
    {
      ApplyWritesSnoc(old(store.settings), chat, ws[..i], ws[i]);
      assert ws[..i + 1] == ws[..i] + [ws[i]];
      store.SetGroupSetting(chat, ws[i].0, ws[i].1);
    }
    assert ws[..|ws|] == ws;
  }

  /** A settings command on the store: the result its function gives, and exactly its writes. */
  method RunCommand(store: ModerationStore, chat: int, r: CommandResult)
    modifies store
    ensures store.settings == ApplyWrites(old(store.settings), chat, WritesOf(r))
    ensures store.ledger == old(store.ledger) && store.activity == old(store.activity)
  {
    WriteAll(store, chat, WritesOf(r));
  }

  method SetWarns(store: ModerationStore, inGroup: bool, chat: int, issuer: int, admins: Option<seq<Admin>>,
                  args: seq<string>) returns (r: CommandResult)
    modifies store
    ensures r == SetWarnsCommand(old(store.GroupSettings(chat)), inGroup, IsGroupAdmin(admins, issuer), args)
    ensures store.settings == ApplyWrites(old(store.settings), chat, WritesOf(r))
    ensures store.ledger == old(store.ledger) && store.activity == old(store.activity)
  {
    r := SetWarnsCommand(store.GroupSettings(chat), inGroup, IsGroupAdmin(admins, issuer), args);
    RunCommand(store, chat, r);
  }

  method SetMute(store: ModerationStore, inGroup: bool, chat: int, issuer: int, admins: Option<seq<Admin>>,
                 args: seq<string>) returns (r: CommandResult)
    modifies store
    ensures r == SetMuteCommand(old(store.GroupSettings(chat)), inGroup, IsGroupAdmin(admins, issuer), args)
    ensures store.settings == ApplyWrites(old(store.settings), chat, WritesOf(r))
    ensures store.ledger == old(store.ledger) && store.activity == old(store.activity)
  {
    r := SetMuteCommand(store.GroupSettings(chat), inGroup, IsGroupAdmin(admins, issuer), args);
    RunCommand(store, chat, r);
  }

  method SetFlag(store: ModerationStore, key: string, inGroup: bool, chat: int, issuer: int, admins: Option<seq<Admin>>,
                 args: seq<string>) returns (r: CommandResult)
    modifies store
    ensures r == SetFlagCommand(old(store.GroupSettings(chat)), key, inGroup, IsGroupAdmin(admins, issuer), args)
    ensures store.settings == ApplyWrites(old(store.settings), chat, WritesOf(r))
    ensures store.ledger == old(store.ledger) && store.activity == old(store.activity)
  {
    r := SetFlagCommand(store.GroupSettings(chat), key, inGroup, IsGroupAdmin(admins, issuer), args);
    RunCommand(store, chat, r);
  }

  method AntiLinks(store: ModerationStore, inGroup: bool, chat: int, issuer: int, admins: Option<seq<Admin>>)
    returns (r: CommandResult)
    modifies store
    ensures r == AntiLinksCommand(old(store.GroupSettings(chat)), inGroup, IsGroupAdmin(admins, issuer))
    ensures store.settings == ApplyWrites(old(store.settings), chat, WritesOf(r))
    ensures store.ledger == old(store.ledger) && store.activity == old(store.activity)
  {
    r := AntiLinksCommand(store.GroupSettings(chat), inGroup, IsGroupAdmin(admins, issuer));
    RunCommand(store, chat, r);
  }

  method Lock(store: ModerationStore, inGroup: bool, chat: int, issuer: int, admins: Option<seq<Admin>>,
              args: seq<string>) returns (r: CommandResult)
    modifies store
    ensures r == LockCommand(inGroup, IsGroupAdmin(admins, issuer), args)
    ensures store.settings == ApplyWrites(old(store.settings), chat, WritesOf(r))
    ensures store.ledger == old(store.ledger) && store.activity == old(store.activity)
  {
    r := LockCommand(inGroup, IsGroupAdmin(admins, issuer), args);
    RunCommand(store, chat, r);
  }

  method LockAll(store: ModerationStore, inGroup: bool, chat: int, issuer: int, admins: Option<seq<Admin>>,
                 args: seq<string>) returns (r: CommandResult)
    modifies store
    ensures r == LockAllCommand(inGroup, IsGroupAdmin(admins, issuer), args)
    ensures store.settings == ApplyWrites(old(store.settings), chat, WritesOf(r))
    ensures store.ledger == old(store.ledger) && store.activity == old(store.activity)
  {
    r := LockAllCommand(inGroup, IsGroupAdmin(admins, issuer), args);
    RunCommand(store, chat, r);
  }

  method GroupConfig(store: ModerationStore, inGroup: bool, chat: int, user: int, admins: Option<seq<Admin>>,
                     data: string) returns (r: CommandResult)
    modifies store
    ensures r == ConfigCallback(old(store.GroupSettings(chat)), inGroup, IsGroupAdmin(admins, user), data)
    ensures store.settings == ApplyWrites(old(store.settings), chat, WritesOf(r))
    ensures store.ledger == old(store.ledger) && store.activity == old(store.activity)
  {
    r := ConfigCallback(store.GroupSettings(chat), inGroup, IsGroupAdmin(admins, user), data);
    RunCommand(store, chat, r);
  }

  /** After `/lockall on|off` every media lock of the group reads the chosen value; other groups keep theirs. */
  lemma LockAllSetsEveryLock(stored: map<int, map<string, int>>, chat: int, inGroup: bool, isAdmin: bool,
                             args: seq<string>, i: nat, other: int)
    requires LockAllCommand(inGroup, isAdmin, args).Wrote? && i < |LockKeys|
    ensures Get(Effective(ApplyWrites(stored, chat, WritesOf(LockAllCommand(inGroup, isAdmin, args))), chat), LockKeys[i], 0)
         == LockAllValue(args).value
    ensures other != chat ==>
      Effective(ApplyWrites(stored, chat, WritesOf(LockAllCommand(inGroup, isAdmin, args))), other) == Effective(stored, other)
  {
    var ws := WritesOf(LockAllCommand(inGroup, isAdmin, args));
    ApplyWritesUniform(stored, chat, ws, LockAllValue(args).value, i);
    if other != chat {
      ApplyWritesOtherChat(stored, chat, ws, other);
    }
  }

  /** A settings command run by someone who is not an administrator, or outside a group, writes nothing. */
  lemma OnlyAdminsWrite(gs: map<string, int>, key: string, inGroup: bool, isAdmin: bool, args: seq<string>, data: string)
    requires !inGroup || !isAdmin
    ensures WritesOf(SetWarnsCommand(gs, inGroup, isAdmin, args)) == []
    ensures WritesOf(SetMuteCommand(gs, inGroup, isAdmin, args)) == []
    ensures WritesOf(SetFlagCommand(gs, key, inGroup, isAdmin, args)) == []
    ensures WritesOf(AntiLinksCommand(gs, inGroup, isAdmin)) == []
    ensures WritesOf(LockCommand(inGroup, isAdmin, args)) == []
    ensures WritesOf(LockAllCommand(inGroup, isAdmin, args)) == []
    ensures WritesOf(ConfigCallback(gs, inGroup, isAdmin, data)) == []
  {
  }

  // ----- the group message handler -----

  /** `MultipurposeBot._pending_captcha`: the approval message sent for each (chat, new member). */
  class CaptchaBook {
    var pending: map<(int, int), int>

    constructor()
      ensures pending == map[]
    {
      pending := map[];
    }

    /**
     * The captcha loop over `message.new_chat_members`: each member whose
     * approval message was sent (`sent[i]` is its id) is recorded; a failed
     * send records nothing.
     */
    method RecordChallenges(chat: int, members: seq<int>, sent: seq<Option<int>>)
      requires |members| == |sent|
      modifies this
      ensures pending == Challenges(old(pending), chat, members, sent)
    {
      for i := 0 to |members|
        invariant pending == Challenges(old(pending), chat, members[..i], sent[..i])
      {
        assert members[..i + 1][..i] == members[..i] && sent[..i + 1][..i] == sent[..i];
        if sent[i].Some? {
          pending := pending[(chat, members[i]) := sent[i].value];
        }
      }
      assert members[..|members|] == members && sent[..|sent|] == sent;
    }
  }

  /** The book after recording `members` in order. */
  function Challenges(p: map<(int, int), int>, chat: int, members: seq<int>, sent: seq<Option<int>>): map<(int, int), int>
    requires |members| == |sent|
    decreases |members|
  {
    if members == [] then p
    else
      var n := |members| - 1;
      var q := Challenges(p, chat, members[..n], sent[..n]);
      if sent[n].Some? then q[(chat, members[n]) := sent[n].value] else q
  }

  /** Exactly the members whose message went out are added, each with the id of their last message; other entries stay. */
  lemma {:induction false} ChallengesRecorded(p: map<(int, int), int>, chat: int, members: seq<int>, sent: seq<Option<int>>)
    requires |members| == |sent|
    ensures Challenges(p, chat, members, sent).Keys ==
              p.Keys + set i | 0 <= i < |members| && sent[i].Some? :: (chat, members[i])
    ensures forall k :: k in p && (forall i :: 0 <= i < |members| && sent[i].Some? ==> k != (chat, members[i])) ==>
              Challenges(p, chat, members, sent)[k] == p[k]
    decreases |members|
  {
    if members != [] {
      var n := |members| - 1;
      ChallengesRecorded(p, chat, members[..n], sent[..n]);
      var before := set i | 0 <= i < n && sent[..n][i].Some? :: (chat, members[..n][i]);
      var all := set i | 0 <= i < |members| && sent[i].Some? :: (chat, members[i]);
      assert all == before + (if sent[n].Some? then {(chat, members[n])} else {}) by {
        forall k | k in all ensures k in before + (if sent[n].Some? then {(chat, members[n])} else {}) {
          var i :| 0 <= i < |members| && sent[i].Some? && k == (chat, members[i]);
          if i < n {
            assert sent[..n][i] == sent[i] && members[..n][i] == members[i];
          }
        }
        forall k | k in before ensures k in all {
          var i :| 0 <= i < n && sent[..n][i].Some? && k == (chat, members[..n][i]);
          assert sent[i] == sent[..n][i] && members[i] == members[..n][i];
        }
      }
    }
  }

  /** What the group message handler did with one message. */
  datatype GroupAction =
    | NotHandled            // not a group, or no message or sender
    | AdminExempt           // activity recorded; nothing enforced against administrators
    | Answered              // a note or a filter answered the message
    | LinkWarned(count: int, mute: AutoMute)
    | MediaWarned(lock: nat, count: int, mute: AutoMute)
    | Passed

  /**
   * The message as the handler sees it. `triggered` stands for a note or
   * filter whose answer went out; an answer that raised is caught by the
   * `except` around the triggers and the handler goes on, which the caller
   * states with `triggered == false`.
   */
  datatype GroupMessage = GroupMessage(sender: Option<int>, hasMessage: bool, triggered: bool, hasLink: bool,
                                       media: Media, newMembers: seq<int>)

  predicate CaptchaOn(gs: map<string, int>) {
    Get(gs, "captcha_enabled", 0) != 0
  }

  /**
   * `_group_message_handler_unified` on the ledger: the link check wins
   * over the media locks, and at most one warning is given per message.
   */
  function GroupOutcome(l: Ledger, gs: map<string, int>, inGroup: bool, chat: int, m: GroupMessage,
                        senderIsAdmin: bool, noticeOk: bool, muteOk: bool): (r: (Ledger, GroupAction))
    ensures r.0.strikes == l.strikes
    ensures (r.1.LinkWarned? || r.1.MediaWarned?) <==>
      && inGroup && m.hasMessage && m.sender.Some? && !senderIsAdmin && !m.triggered
      && ((Get(gs, AntiLinksKey, 0) != 0 && m.hasLink) || FirstLockHit(Present(m.media), gs, 0).Some?)
    ensures r.1.LinkWarned? <==>
      inGroup && m.hasMessage && m.sender.Some? && !senderIsAdmin && !m.triggered && Get(gs, AntiLinksKey, 0) != 0 && m.hasLink
    ensures r.1.MediaWarned? ==> Some(r.1.lock) == FirstLockHit(Present(m.media), gs, 0)
    ensures !(r.1.LinkWarned? || r.1.MediaWarned?) ==> r.0 == l
    ensures r.1.LinkWarned? || r.1.MediaWarned? ==>
      (r.0, r.1.count, r.1.mute) == AutoWarn(l, (chat, m.sender.value), gs, noticeOk, muteOk)
  {
    if !inGroup || !m.hasMessage || m.sender.None? then (l, NotHandled)
    else if senderIsAdmin then (l, AdminExempt)
    else if m.triggered then (l, Answered)
    else if Get(gs, AntiLinksKey, 0) != 0 && m.hasLink then
      var w := AutoWarn(l, (chat, m.sender.value), gs, noticeOk, muteOk);
      (w.0, LinkWarned(w.1, w.2))
    else match FirstLockHit(Present(m.media), gs, 0)
      case None => (l, Passed)
      case Some(i) =>
        var w := AutoWarn(l, (chat, m.sender.value), gs, noticeOk, muteOk);
        (w.0, MediaWarned(i, w.1, w.2))
  }

  /** The media-lock loop: the first `(key, present)` pair with the media present and the lock on, or none (`break` on the first). */
  method FirstLockedIndex(present: seq<bool>, gs: map<string, int>) returns (r: Option<nat>)
    requires |present| == |LockKeys|
    ensures r == FirstLockHit(present, gs, 0)
  {
    var i := 0;
    while i < |LockKeys|
      invariant 0 <= i <= |LockKeys|
      invariant FirstLockHit(present, gs, 0) == FirstLockHit(present, gs, i)
    {
      if present[i] && Get(gs, LockKeys[i], 0) != 0 {
        return Some(i);
      }
      i := i + 1;
    }
    return None;
  }

  /** An administrator's messages, and messages a note or filter answered, never earn a warning. */
  lemma AdminsNotEnforced(l: Ledger, gs: map<string, int>, inGroup: bool, chat: int, m: GroupMessage,
                          noticeOk: bool, muteOk: bool)
    ensures GroupOutcome(l, gs, inGroup, chat, m, true, noticeOk, muteOk).0 == l
    ensures GroupOutcome(l, gs, inGroup, chat, m.(triggered := true), false, noticeOk, muteOk).0 == l
  {
  }

  /** One automatic warning on the store, as the link and media branches issue it. */
  method AutoWarnStore(store: ModerationStore, chat: int, user: int, gs: map<string, int>, noticeOk: bool, muteOk: bool)
    returns (count: int, mute: AutoMute)
    modifies store
    ensures (store.ledger, count, mute) == AutoWarn(old(store.ledger), (chat, user), gs, noticeOk, muteOk)
    ensures store.settings == old(store.settings) && store.activity == old(store.activity)
  {
    ghost var l0 := store.ledger;
    count := store.IncrementWarning(chat, user);
    if !noticeOk {
      return count, NoticeRaised;
    }
    var threshold := SettingOr(gs, WarnThresholdKey, 3);
    mute := NoMute;
    if count >= threshold {
      var cleared := muteOk && ResetOnMute(gs);
      if cleared {
        store.ClearWarnings(chat, user);
        assert store.ledger.warns == l0.warns - {(chat, user)};
      }
      mute := AutoMuted(SettingOr(gs, MuteMinutesKey, 10), muteOk, cleared);
    }
  }

  /**
   * The handler on the stores: activity is recorded for every group
   * message with a sender (administrators included), captcha challenges
   * are recorded for new members when enabled, then `GroupOutcome`.
   * `noticeOk` is the outcome of the "Warning n/t" notice, `muteOk` that of
   * the restrict call and the notice after it, and `sent` the ids of the
   * approval messages. The other sends (deletions, the restrict call of the
   * captcha) are each in a `try` of their own that changes nothing when it
   * fails.
   */
  method GroupMessageHandler(store: ModerationStore, book: CaptchaBook, inGroup: bool, chat: int, m: GroupMessage,
                             senderIsAdmin: bool, noticeOk: bool, muteOk: bool, sent: seq<Option<int>>)
    returns (action: GroupAction)
    requires |sent| == |m.newMembers|
    modifies store, book
    ensures (store.ledger, action) == GroupOutcome(old(store.ledger), old(store.GroupSettings(chat)), inGroup, chat, m,
                                                  senderIsAdmin, noticeOk, muteOk)
    ensures store.activity == if inGroup && m.hasMessage && m.sender.Some?
                              then old(store.activity) + [(chat, m.sender.value)] else old(store.activity)
    ensures store.settings == old(store.settings)
    ensures book.pending == if inGroup && m.hasMessage && m.sender.Some? && !senderIsAdmin && CaptchaOn(old(store.GroupSettings(chat)))
                            then Challenges(old(book.pending), chat, m.newMembers, sent) else old(book.pending)
  {
    if !inGroup || !m.hasMessage || m.sender.None? {
      return NotHandled;
    }
    var user := m.sender.value;
    store.RecordActivity(chat, user);
    var gs := store.GroupSettings(chat);
    if senderIsAdmin {
      return AdminExempt;
    }
    if CaptchaOn(gs) {
      book.RecordChallenges(chat, m.newMembers, sent);
    }
    if m.triggered {
      return Answered;
    }
    var count: int, mute: AutoMute;
    if Get(gs, AntiLinksKey, 0) != 0 && m.hasLink {
      count, mute := AutoWarnStore(store, chat, user, gs, noticeOk, muteOk);
      return LinkWarned(count, mute);
    }
    var hit := FirstLockedIndex(Present(m.media), gs);
    if hit.None? {
      return Passed;
    }
    count, mute := AutoWarnStore(store, chat, user, gs, noticeOk, muteOk);
    return MediaWarned(hit.value, count, mute);
  }
}
