/**
 * The private-chat dialogues of the contest bots, kept in the per-user
 * `context.user_data` dictionary: creating an event (title, description
 * and, in the enhanced bot, a group link), attaching a group link to an
 * existing event, and joining an event.
 */
module EventFlow {
  import opened Common
  import opened PyStr
  import opened AssumedStore
  import opened Links
  import opened StartCodes

  /** `user_data['event_step']`. */
  datatype Step = NoStep | TitleStep | DescriptionStep | GroupLinkStep

  /** The dialogue keys of `user_data`; a missing key is `false`, `NoStep` or `None`. */
  datatype Flow = Flow(creatingEvent: bool, step: Step, title: Option<string>, description: Option<string>,
                       settingGroupLink: bool, targetEvent: Option<int>)

  /** `user_data` after `user_data.clear()`. */
  const Cleared := Flow(false, NoStep, None, None, false, None)

  /** The store call a text message triggers. */
  datatype StoreCall =
    | NoCall
    | CreateEventCall(title: string, description: Option<string>, groupLink: Option<string>)
    | UpdateLinkCall(eventId: Option<int>, link: string)

  const TitleMax := 100
  const DescriptionMax := 500

  /** `text.strip().lower() == 'skip'`. */
  predicate IsSkip(text: string) {
    Lower(Strip(text)) == "skip"
  }

  /**
   * What the dialogue keeps: an event title is recorded before the later
   * steps are reached, and the recorded title, description and target
   * obey the limits the handlers check.
   */
  predicate FlowOk(f: Flow) {
    && ((f.step == DescriptionStep || f.step == GroupLinkStep) ==> f.title.Some?)
    && (f.title.Some? ==> |f.title.value| <= TitleMax)
    && (f.description.Some? ==> |f.description.value| <= DescriptionMax)
  }

  /** `start_create_event`: the creation flag and the title step; nothing else is reset. */
  function StartCreate(f: Flow): Flow {
    f.(creatingEvent := true, step := TitleStep)
  }

  /** `start_set_group_link(event_id)`. */
  function StartSetLink(f: Flow, eventId: int): Flow {
    f.(settingGroupLink := true, targetEvent := Some(eventId))
  }

  /** The title step, shared by both bots: the stripped text, unless longer than 100. */
  function TitleText(f: Flow, text: string): (r: Flow)
    ensures |Strip(text)| > TitleMax ==> r == f
    ensures |Strip(text)| <= TitleMax ==> r.title == Some(Strip(text)) && r.step == DescriptionStep
    ensures r.creatingEvent == f.creatingEvent && r.description == f.description
    ensures r.settingGroupLink == f.settingGroupLink && r.targetEvent == f.targetEvent
  {
    var t := Strip(text);
    if |t| > TitleMax then f else f.(title := Some(t), step := DescriptionStep)
  }

  /** The description read from a text: `None` for "skip", else the stripped text if it fits. */
  function DescriptionOf(text: string): (r: Option<Option<string>>)
    ensures r == Some(None) <==> IsSkip(text)
    ensures r.Some? && r.value.Some? ==> r.value.value == Strip(text) && |Strip(text)| <= DescriptionMax
    ensures r.None? <==> !IsSkip(text) && |Strip(text)| > DescriptionMax
  {
    if IsSkip(text) then Some(None)
    else if |Strip(text)| > DescriptionMax then None
    else Some(Some(Strip(text)))
  }

  /**
   * The dialogue after a store call: the handler sends its answer and only
   * then calls `user_data.clear()`, so when the answer raises (`replyOk`
   * false) the dialogue stays as it was.
   */
  function AfterCall(f: Flow, replyOk: bool): (r: Flow)
    ensures r == Cleared || r == f
    ensures r == Cleared <==> replyOk || f == Cleared
  {
    if replyOk then Cleared else f
  }

  /**
   * `EnhancedBot.handle_text_message`: a text while creating an event goes
   * to its step, else to the link dialogue; `replyOk` is the outcome of the
   * answer sent after a store call.
   */
  function EnhancedText(f: Flow, text: string, replyOk: bool): (r: (Flow, StoreCall))
    ensures r.1.CreateEventCall? ==>
      && f.creatingEvent && f.step == GroupLinkStep && f.title == Some(r.1.title) && r.1.description == f.description
      && (r.1.groupLink.None? <==> IsSkip(text))
      && r.0 == AfterCall(f, replyOk)
    ensures r.1.UpdateLinkCall? ==>
      && !f.creatingEvent && f.settingGroupLink && r.1.eventId == f.targetEvent
      && r.1.link == Strip(text) && EnhancedValidLink(r.1.link)
      && r.0 == AfterCall(f, replyOk)
    ensures r.1.NoCall? ==>
      && r.0.creatingEvent == f.creatingEvent && r.0.settingGroupLink == f.settingGroupLink
      && r.0.targetEvent == f.targetEvent
  {
    if f.creatingEvent then
      match f.step
      case TitleStep => (TitleText(f, text), NoCall)
      case DescriptionStep =>
        (match DescriptionOf(text)
         case None => (f, NoCall)
         case Some(d) => (f.(description := d, step := GroupLinkStep), NoCall))
      case GroupLinkStep =>
        var link := if IsSkip(text) then None else Some(Strip(text));
        if link.Some? && !EnhancedValidLink(link.value) then (f, NoCall)
        else if f.title.None? then (f, NoCall)   // `user_data['event_title']` raises inside the `try`
        else (AfterCall(f, replyOk), CreateEventCall(f.title.value, f.description, link))
      case NoStep => (f, NoCall)
    else if f.settingGroupLink then
      var link := Strip(text);
      if !EnhancedValidLink(link) then (f, NoCall) else (AfterCall(f, replyOk), UpdateLinkCall(f.targetEvent, link))
    else (f, NoCall)
  }

  /** `StableBot.handle_text_message`: two steps; the description step creates the event. */
  function StableText(f: Flow, text: string, replyOk: bool): (r: (Flow, StoreCall))
    ensures !r.1.UpdateLinkCall?
    ensures r.1.CreateEventCall? ==>
      && f.creatingEvent && f.step == DescriptionStep && f.title == Some(r.1.title) && r.1.groupLink.None?
      && (r.1.description.None? <==> IsSkip(text))
      && r.0 == AfterCall(f, replyOk)
    ensures r.1.NoCall? ==>
      && r.0.creatingEvent == f.creatingEvent && r.0.settingGroupLink == f.settingGroupLink
      && r.0.targetEvent == f.targetEvent
  {
    if f.creatingEvent && f.step == TitleStep then (TitleText(f, text), NoCall)
    else if f.creatingEvent && f.step == DescriptionStep then
      match DescriptionOf(text)
      case None => (f, NoCall)
      case Some(d) =>
        if f.title.None? then (f, NoCall)
        else (AfterCall(f, replyOk), CreateEventCall(f.title.value, d, None))
    else (f, NoCall)
  }

  /** A created event fits the limits, and its group link, if any, is one the enhanced check accepts. */
  predicate CallOk(c: StoreCall) {
    match c
    case NoCall => true
    case CreateEventCall(t, d, l) =>
      && |t| <= TitleMax
      && (d.Some? ==> |d.value| <= DescriptionMax)
      && (l.Some? ==> EnhancedValidLink(l.value) && Strip(l.value) == l.value)
    case UpdateLinkCall(_, l) => EnhancedValidLink(l) && Strip(l) == l
  }

  lemma StartsKeepFlowOk(f: Flow, eventId: int)
    requires FlowOk(f)
    ensures FlowOk(StartCreate(f)) && FlowOk(StartSetLink(f, eventId)) && FlowOk(Cleared)
  {
  }

  /**
   * Every text message keeps `FlowOk`, and whatever either bot hands to
   * the store obeys the limits: at most 100 characters of title, at most
   * 500 of description, a stripped link the check accepts.
   */
  lemma TextKeepsFlowOk(f: Flow, text: string, replyOk: bool)
    requires FlowOk(f)
    ensures FlowOk(EnhancedText(f, text, replyOk).0) && CallOk(EnhancedText(f, text, replyOk).1)
    ensures FlowOk(StableText(f, text, replyOk).0) && CallOk(StableText(f, text, replyOk).1)
  {
    StripIdempotent(text);
  }

  lemma StripIdempotent(s: string)
    ensures Strip(Strip(s)) == Strip(s)
  {
    var t := Strip(s);
    if |t| > 0 {
      TrimNoSpaceEnds(s);
    }
  }

  /** A stripped text is empty or has non-space characters at both ends, so stripping it again changes nothing. */
  lemma TrimNoSpaceEnds(s: string)
    requires |Strip(s)| > 0
    ensures Strip(Strip(s)) == Strip(s)
  {
    var t := Strip(s);
    TrimLeftSlice(TrimRight(s));
    TrimRightSlice(s);
    assert !IsSpace(t[0]) && !IsSpace(t[|t| - 1]);
    StripEnds(t);
  }

  lemma StripEnds(t: string)
    requires |t| > 0 && !IsSpace(t[0]) && !IsSpace(t[|t| - 1])
    ensures Strip(t) == t
  {
    assert TrimRight(t) == t;
    assert TrimLeft(t) == t;
  }

  /**
   * With `FlowOk`, the group-link step ends the dialogue once its answer
   * goes out: "skip" or an accepted link creates the event from the
   * recorded title and description and clears `user_data`; anything else
   * leaves it as it was.
   */
  lemma GroupLinkStepCompletes(f: Flow, text: string)
    requires FlowOk(f) && f.creatingEvent && f.step == GroupLinkStep
    ensures IsSkip(text) ==> EnhancedText(f, text, true) == (Cleared, CreateEventCall(f.title.value, f.description, None))
    ensures !IsSkip(text) && EnhancedValidLink(Strip(text)) ==>
              EnhancedText(f, text, true) == (Cleared, CreateEventCall(f.title.value, f.description, Some(Strip(text))))
    ensures !IsSkip(text) && !EnhancedValidLink(Strip(text)) ==> EnhancedText(f, text, true) == (f, NoCall)
  {
  }

  /**
   * When the answer after creating an event raises, `user_data` is not
   * cleared, so sending the same text again creates the same event a second
   * time, in either bot.
   */
  lemma FailedReplyRepeatsCreation(f: Flow, text: string, replyOk: bool)
    requires EnhancedText(f, text, false).1.CreateEventCall? || StableText(f, text, false).1.CreateEventCall?
    ensures EnhancedText(f, text, false).1.CreateEventCall? ==>
      && EnhancedText(f, text, false).0 == f
      && EnhancedText(EnhancedText(f, text, false).0, text, replyOk).1 == EnhancedText(f, text, false).1
    ensures StableText(f, text, false).1.CreateEventCall? ==>
      && StableText(f, text, false).0 == f
      && StableText(StableText(f, text, false).0, text, replyOk).1 == StableText(f, text, false).1
  {
  }

  /** While an event is being created, the link dialogue is not reachable, even if it was started. */
  lemma CreationHasPriority(f: Flow, text: string, replyOk: bool)
    requires f.creatingEvent
    ensures !EnhancedText(f, text, replyOk).1.UpdateLinkCall?
  {
  }

  /**
   * `skip_group_link`: needs a truthy target that names an event; then the
   * confirmation is edited in (`editOk`) and only after it `user_data` is
   * cleared, so a failed edit leaves the dialogue as it was.
   */
  datatype SkipReply = NoEventSelected | EventNotFound | Skipped(eventId: int)

  function SkipLink(f: Flow, events: map<int, EventRow>, editOk: bool): (r: (Flow, SkipReply))
    ensures r.1.Skipped? <==> Truthy(f.targetEvent) && f.targetEvent.value in events
    ensures r.0 == if r.1.Skipped? && editOk then Cleared else f
    ensures r.1.Skipped? ==> r.1.eventId == f.targetEvent.value
  {
    if !Truthy(f.targetEvent) then (f, NoEventSelected)
    else if f.targetEvent.value !in events then (f, EventNotFound)
    else (AfterCall(f, editOk), Skipped(f.targetEvent.value))
  }

  /** The event table after a store call by `host` (a created event gets `freshId` and `freshCode`). */
  function ApplyCall(events: map<int, EventRow>, call: StoreCall, host: int, freshId: int, freshCode: string): map<int, EventRow> {
    match call
    case NoCall => events
    case CreateEventCall(t, d, l) => events[freshId := EventRow(freshCode, host, t, d, l, true)]
    case UpdateLinkCall(id, l) =>
      if id.Some? && id.value in events then events[id.value := events[id.value].(groupLink := Some(l))] else events
  }

  /** `context.user_data` of one private chat. */
  class Session {
    var creatingEvent: bool
    var step: Step
    var title: Option<string>
    var description: Option<string>
    var settingGroupLink: bool
    var targetEvent: Option<int>

    constructor()
      ensures Snapshot() == Cleared
    {
      creatingEvent, step, title, description, settingGroupLink, targetEvent := false, NoStep, None, None, false, None;
    }

    function Snapshot(): Flow
      reads this
    {
      Flow(creatingEvent, step, title, description, settingGroupLink, targetEvent)
    }

    /** `user_data.clear()`, as `back_to_menu` does. */
    method Clear()
      modifies this
      ensures Snapshot() == Cleared
    {
      creatingEvent, step, title, description, settingGroupLink, targetEvent := false, NoStep, None, None, false, None;
    }

    /** `start_create_event`. */
    method StartCreateEvent()
      modifies this
      ensures Snapshot() == StartCreate(old(Snapshot()))
    {
      creatingEvent := true;
      step := TitleStep;
    }

    /** `start_set_group_link(event_id)`. */
    method StartSetGroupLink(eventId: int)
      modifies this
      ensures Snapshot() == StartSetLink(old(Snapshot()), eventId)
    {
      settingGroupLink := true;
      targetEvent := Some(eventId);
    }

    method TitleStepText(text: string)
      modifies this
      ensures Snapshot() == TitleText(old(Snapshot()), text)
    {
      var t := Strip(text);
      if |t| > TitleMax {
        return;
      }
      title := Some(t);
      step := DescriptionStep;
    }

    /**
     * `EnhancedBot.handle_text_message` from `host`: the dialogue moves on
     * as `EnhancedText` says, and the store performs its call.
     */
    method EnhancedHandleText(store: ReferralStore, host: int, text: string, freshId: int, freshCode: string, replyOk: bool)
      returns (call: StoreCall)
      requires store.Valid() && freshId !in store.events && freshCode !in store.eventByCode
      modifies this, store
      ensures store.Valid()
      ensures (Snapshot(), call) == EnhancedText(old(Snapshot()), text, replyOk)
      ensures store.events == ApplyCall(old(store.events), call, host, freshId, freshCode)
      ensures store.eventByCode == if call.CreateEventCall? then old(store.eventByCode)[freshCode := freshId]
                                   else old(store.eventByCode)
      ensures store.users == old(store.users) && store.userByCode == old(store.userByCode)
      ensures store.participants == old(store.participants)
    {
      call := NoCall;
      if creatingEvent {
        if step == TitleStep {
          TitleStepText(text);
        } else if step == DescriptionStep {
          var d := DescriptionOf(text);
          if d.Some? {
            description := d.value;
            step := GroupLinkStep;
          }
        } else if step == GroupLinkStep {
          var link: Option<string> := if IsSkip(text) then None else Some(Strip(text));
          if link.Some? && !EnhancedValidLink(link.value) {
            return;
          }
          if title.None? {
            return;
          }
          call := CreateEventCall(title.value, description, link);
          var code := store.CreateEvent(host, title.value, description, link, freshId, freshCode);
          if replyOk {
            Clear();
          }
        }
      } else if settingGroupLink {
        var link := Strip(text);
        if !EnhancedValidLink(link) {
          return;
        }
        call := UpdateLinkCall(targetEvent, link);
        var ok := store.UpdateEventGroupLink(targetEvent, link);
        if replyOk {
          Clear();
        }
      }
    }

    /** `StableBot.handle_text_message` from `host`. */
    method StableHandleText(store: ReferralStore, host: int, text: string, freshId: int, freshCode: string, replyOk: bool)
      returns (call: StoreCall)
      requires store.Valid() && freshId !in store.events && freshCode !in store.eventByCode
      modifies this, store
      ensures store.Valid()
      ensures (Snapshot(), call) == StableText(old(Snapshot()), text, replyOk)
      ensures store.events == ApplyCall(old(store.events), call, host, freshId, freshCode)
      ensures store.eventByCode == if call.CreateEventCall? then old(store.eventByCode)[freshCode := freshId]
                                   else old(store.eventByCode)
      ensures store.users == old(store.users) && store.userByCode == old(store.userByCode)
      ensures store.participants == old(store.participants)
    {
      call := NoCall;
      if creatingEvent && step == TitleStep {
        TitleStepText(text);
      } else if creatingEvent && step == DescriptionStep {
        var d := DescriptionOf(text);
        if d.None? || title.None? {
          return;
        }
        call := CreateEventCall(title.value, d.value, None);
        var code := store.CreateEvent(host, title.value, d.value, None, freshId, freshCode);
        if replyOk {
          Clear();
        }
      }
    }

    /** `EnhancedBot.skip_group_link`. */
    method SkipGroupLink(store: ReferralStore, editOk: bool) returns (reply: SkipReply)
      modifies this
      ensures (Snapshot(), reply) == SkipLink(old(Snapshot()), store.events, editOk)
    {
      if !Truthy(targetEvent) {
        return NoEventSelected;
      }
      if targetEvent.value !in store.events {
        return EventNotFound;
      }
      reply := Skipped(targetEvent.value);
      if editOk {
        Clear();
      }
    }
  }

  // ----- Joining an event -----

  /** The answer of `join_event_confirm`: the join-group URL and the personal code `<referral>_<event>`, when there are any. */
  datatype JoinReply = JoinFailed | Joined(groupButton: Option<string>, personalCode: Option<string>)

  /** `EnhancedBot.join_event_confirm`'s answer, read from the tables before the insert. */
  function EnhancedJoinReply(users: map<int, UserRow>, events: map<int, EventRow>, user: int, eventId: int): (r: JoinReply)
    ensures r.Joined? <==> eventId in events
    ensures r.Joined? && r.groupButton.Some? ==>
              events[eventId].groupLink.Some? && r.groupButton.value == FormatGroupLink(events[eventId].groupLink.value)
    ensures r.Joined? && r.personalCode.Some? ==>
              user in users && r.personalCode.value == users[user].code + "_" + events[eventId].code
  {
    if eventId !in events then JoinFailed   // `event_row` is `None`: the handler's error reply
    else
      var e := events[eventId];
      var button := if e.groupLink.Some? && e.groupLink.value != "" then Some(FormatGroupLink(e.groupLink.value)) else None;
      var personal := if user in users && users[user].code != "" then Some(users[user].code + "_" + e.code) else None;
      Joined(button, personal)
  }

  /**
   * The personal code a participant is shown is a `/start` code that
   * registers a newcomer under that participant and that event.
   */
  lemma PersonalCodeRegistersReferral(users: map<int, UserRow>, events: map<int, EventRow>,
                                     userByCode: map<string, int>, eventByCode: map<string, int>,
                                     user: int, eventId: int, newcomer: int)
    requires EnhancedJoinReply(users, events, user, eventId).Joined?
    requires EnhancedJoinReply(users, events, user, eventId).personalCode.Some?
    requires user in users && eventId in events
    requires userByCode.Keys >= {users[user].code} && userByCode[users[user].code] == user
    requires eventByCode.Keys >= {events[eventId].code} && eventByCode[events[eventId].code] == eventId
    requires '_' !in users[user].code && '_' !in events[eventId].code
    requires EnhancedJoinReply(users, events, user, eventId).personalCode.value !in eventByCode
    requires newcomer != user
    ensures ContestResolve([EnhancedJoinReply(users, events, user, eventId).personalCode.value], newcomer,
                           userByCode, eventByCode) == Register(Some(user), Some(eventId))
  {
    ContestPersonalCode(users[user].code, events[eventId].code, newcomer, userByCode, eventByCode);
  }

  /** A join button built from a stored link is a `https://t.me/` URL the link check accepts. */
  lemma JoinButtonValid(users: map<int, UserRow>, events: map<int, EventRow>, user: int, eventId: int)
    requires eventId in events && events[eventId].groupLink.Some?
    requires EnhancedValidLink(events[eventId].groupLink.value)
    requires Strip(events[eventId].groupLink.value) == events[eventId].groupLink.value
    requires EnhancedJoinReply(users, events, user, eventId).groupButton.Some?
    ensures StartsWith(EnhancedJoinReply(users, events, user, eventId).groupButton.value, TmePrefix)
    ensures EnhancedValidLink(EnhancedJoinReply(users, events, user, eventId).groupButton.value)
  {
    FormattedLinkValid(events[eventId].groupLink.value);
  }

  /**
   * The enhanced bot's `join_event_confirm`: `INSERT OR IGNORE` of the pair
   * (foreign keys are not enforced, so it is inserted even when the event
   * does not exist), then the answer.
   */
  method JoinEventConfirm(store: ReferralStore, user: int, eventId: int) returns (reply: JoinReply)
    modifies store
    ensures store.participants == old(store.participants) + {(eventId, user)}
    ensures reply == EnhancedJoinReply(old(store.users), old(store.events), user, eventId)
    ensures store.users == old(store.users) && store.userByCode == old(store.userByCode)
    ensures store.events == old(store.events) && store.eventByCode == old(store.eventByCode)
  {
    store.participants := store.participants + {(eventId, user)};
    reply := EnhancedJoinReply(store.users, store.events, user, eventId);
  }
}
