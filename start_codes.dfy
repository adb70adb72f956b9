/**
 * `/start <code>`: how the bots read the deep-link code, and how the
 * caller is registered.
 *
 * - The contest bots (`enhanced_bot.py`, `stable_bot.py`) accept an event
 *   code (shows the join prompt), a personal code `<referral>_<event>`,
 *   or a bare referral code; nobody is recorded as their own referrer.
 * - `fixed_bot.py` accepts only a referral code.
 * - `multipurpose_bot.py` splits at the first `_`, takes the left part as
 *   a referral code and looks the rest up among the active events.
 *
 * The code lookups are maps from code to id (`get_user_by_referral_code`,
 * `get_event_by_code`, or the active-event query).
 */
module StartCodes {
  import opened Common
  import opened PyStr
  import opened AssumedStore

  /** What a `/start` leads to: the event join prompt (nobody is registered), or registration. */
  datatype StartIntent =
    | JoinPrompt(promptEvent: int)
    | Register(referredBy: Option<int>, eventId: Option<int>)

  /** `start` of the enhanced and the stable bot (the two agree on everything stored). */
  function ContestResolve(args: seq<string>, caller: int, refs: map<string, int>, events: map<string, int>): (r: StartIntent)
    ensures |args| == 0 ==> r == Register(None, None)
    ensures r.JoinPrompt? <==> |args| > 0 && args[0] in events
    ensures r.JoinPrompt? ==> r.promptEvent == events[args[0]]
    ensures r.Register? && r.referredBy.Some? ==> r.referredBy.value != caller && r.referredBy.value in refs.Values
    ensures r.Register? && r.eventId.Some? ==> r.referredBy.Some? && r.eventId.value in events.Values
    // a bare code: a referrer exactly when it names someone other than the caller, and never an event
    ensures |args| > 0 && args[0] !in events && '_' !in args[0] ==>
      && r.eventId.None?
      && (r.referredBy.Some? <==> args[0] in refs && refs[args[0]] != caller)
      && (r.referredBy.Some? ==> r.referredBy.value == refs[args[0]])
    // a code with `_`: both fields or neither, and both exactly when its two halves are known
    ensures |args| > 0 && args[0] !in events && '_' in args[0] ==>
      var parts := SplitOn(args[0], '_');
      && (r.referredBy.Some? <==> r.eventId.Some?)
      && (r.referredBy.Some? <==> |parts| == 2 && parts[0] in refs && parts[1] in events && refs[parts[0]] != caller)
      && (r.referredBy.Some? ==> r.referredBy.value == refs[parts[0]] && r.eventId.value == events[parts[1]])
  {
    if |args| == 0 then Register(None, None)
    else
      var code := args[0];
      if code in events then JoinPrompt(events[code])
      else if '_' in code then
        var parts := SplitOn(code, '_');
        if |parts| == 2 && parts[0] in refs && parts[1] in events && refs[parts[0]] != caller
        then Register(Some(refs[parts[0]]), Some(events[parts[1]]))
        else Register(None, None)
      else if code in refs && refs[code] != caller then Register(Some(refs[code]), None)
      else Register(None, None)
  }

  /** `FixedBot.start`: the referrer named by the code, unless that is the caller. */
  function FixedResolve(args: seq<string>, caller: int, refs: map<string, int>): (r: Option<int>)
    ensures r.Some? <==> |args| > 0 && args[0] in refs && refs[args[0]] != caller
    ensures r.Some? ==> r.value == refs[args[0]]
  {
    if |args| > 0 && args[0] in refs && refs[args[0]] != caller then Some(refs[args[0]]) else None
  }

  /** `MultipurposeBot.start` as written: a referrer only from the part before a `_`. */
  function MultipurposeResolve(args: seq<string>, refs: map<string, int>, active: map<string, int>): (r: StartIntent)
    ensures r.Register?
    ensures r.referredBy.Some? ==> |args| > 0 && '_' in args[0] && r.referredBy.value in refs.Values
    ensures r.eventId.Some? ==> r.eventId.value in active.Values
    ensures |args| == 0 ==> r == Register(None, None)
    // the part before the first `_` chooses the referrer, the rest (or the whole code) the active event
    ensures |args| > 0 && '_' in args[0] ==>
      var (left, right) := SplitFirst(args[0], '_');
      && (r.referredBy.Some? <==> left in refs) && (r.referredBy.Some? ==> r.referredBy.value == refs[left])
      && (r.eventId.Some? <==> right in active) && (r.eventId.Some? ==> r.eventId.value == active[right])
    ensures |args| > 0 && '_' !in args[0] ==>
      && r.referredBy.None?
      && (r.eventId.Some? <==> args[0] in active) && (r.eventId.Some? ==> r.eventId.value == active[args[0]])
  {
    if |args| == 0 then Register(None, None)
    else
      var code := args[0];
      var referrer: Option<int> :=
        if '_' in code && SplitFirst(code, '_').0 in refs then Some(refs[SplitFirst(code, '_').0]) else None;
      var key := if '_' in code then SplitFirst(code, '_').1 else code;
      Register(referrer, if key in active then Some(active[key]) else None)
  }

  /**
   * The handler with its own comment's intent ("pure user referral code
   * handled by add_user below"): a bare code that names no active event is
   * read as a referral code.
   */
  function IntendedMultipurposeResolve(args: seq<string>, refs: map<string, int>, active: map<string, int>): (r: StartIntent)
    ensures r.Register?
    ensures r.referredBy.Some? ==> |args| > 0 && r.referredBy.value in refs.Values
  {
    var asWritten := MultipurposeResolve(args, refs, active);
    if |args| > 0 && '_' !in args[0] && args[0] !in active && args[0] in refs
    then Register(Some(refs[args[0]]), None)
    else asWritten
  }

  /** `a_b` with no `_` in `a` splits once into `a` and `b`. */
  lemma SplitFirstJoin(a: string, b: string)
    requires '_' !in a
    ensures '_' in a + "_" + b && SplitFirst(a + "_" + b, '_') == (a, b)
  {
    var s := a + "_" + b;
    assert s[|a|] == '_';
    var r := SplitFirst(s, '_');
    if |r.0| < |a| {
      assert false;
    } else if |r.0| > |a| {
      assert false;
    }
    assert r.0 == s[..|a|] == a;
    assert r.1 == s[|a| + 1..] == b;
  }

  /**
   * The personal code `<referral>_<event>` handed out by `join_event_confirm`
   * registers the caller under that referrer and event, in the contest bots.
   */
  lemma ContestPersonalCode(refCode: string, eventCode: string, caller: int,
                            refs: map<string, int>, events: map<string, int>)
    requires '_' !in refCode && '_' !in eventCode
    requires refCode in refs && eventCode in events && refs[refCode] != caller
    requires refCode + "_" + eventCode !in events
    ensures ContestResolve([refCode + "_" + eventCode], caller, refs, events)
         == Register(Some(refs[refCode]), Some(events[eventCode]))
  {
    var code := refCode + "_" + eventCode;
    assert code == refCode + ['_'] + eventCode;
    assert code[|refCode|] == '_';
    SplitOnJoinTwo(refCode, eventCode, '_');
  }

  /** The same personal code in the multipurpose bot: the event part may itself hold `_`. */
  lemma MultipurposePersonalCode(refCode: string, rest: string, refs: map<string, int>, active: map<string, int>)
    requires '_' !in refCode && refCode in refs && rest in active
    ensures MultipurposeResolve([refCode + "_" + rest], refs, active) == Register(Some(refs[refCode]), Some(active[rest]))
  {
    SplitFirstJoin(refCode, rest);
  }

  /**
   * Every multipurpose code with a `_` is `<left>_<right>` with no `_` in
   * `left`, and then `left` alone picks the referrer and `right` alone the
   * active event, whatever the other half is.
   */
  lemma MultipurposeHalves(left: string, right: string, rest: seq<string>, refs: map<string, int>, active: map<string, int>)
    requires '_' !in left
    ensures MultipurposeResolve([left + "_" + right] + rest, refs, active)
         == Register(if left in refs then Some(refs[left]) else None, if right in active then Some(active[right]) else None)
  {
    SplitFirstJoin(left, right);
    assert ([left + "_" + right] + rest)[0] == left + "_" + right;
  }

  /**
   * A bare referral code, which `show_stats` hands out as `?start=<code>`,
   * registers a referrer in the contest bots but never in the multipurpose bot.
   */
  lemma BareReferralCodeDropped(code: string, caller: int, refs: map<string, int>, events: map<string, int>,
                                active: map<string, int>)
    requires '_' !in code && code in refs && refs[code] != caller
    requires code !in events && code !in active
    ensures ContestResolve([code], caller, refs, events) == Register(Some(refs[code]), None)
    ensures MultipurposeResolve([code], refs, active) == Register(None, None)
  {
  }

  /** The intended multipurpose reading keeps the referrer of a bare code, and changes nothing else. */
  lemma IntendedBareReferralCode(code: string, refs: map<string, int>, active: map<string, int>)
    ensures '_' !in code && code in refs && code !in active ==>
              IntendedMultipurposeResolve([code], refs, active) == Register(Some(refs[code]), None)
    ensures '_' in code || code in active ==>
              IntendedMultipurposeResolve([code], refs, active) == MultipurposeResolve([code], refs, active)
  {
  }

  // ----- Registration -----

  /**
   * The user table after a `/start`: a new user gets a row with the fresh
   * code and the resolved referrer and event; a known user keeps their row.
   */
  function AfterStart(users: map<int, UserRow>, user: int, intent: StartIntent, freshCode: string): (r: map<int, UserRow>)
    ensures r.Keys == if intent.Register? then users.Keys + {user} else users.Keys
    ensures forall u :: u in users ==> r[u] == users[u]
  {
    if intent.JoinPrompt? || user in users then users
    else users[user := UserRow(freshCode, intent.referredBy, intent.eventId)]
  }

  /** One `/start` of a run: the caller, what the code resolved to, and the code generated for them. */
  datatype StartCall = StartCall(user: int, intent: StartIntent, freshCode: string)

  function Run(users: map<int, UserRow>, calls: seq<StartCall>): map<int, UserRow>
    decreases |calls|
  {
    if |calls| == 0 then users
    else Run(AfterStart(users, calls[0].user, calls[0].intent, calls[0].freshCode), calls[1..])
  }

  /** Whatever `/start` links are followed later, a user's referrer, event and code stay those of their first registration. */
  lemma {:induction false} FirstRegistrationKept(users: map<int, UserRow>, calls: seq<StartCall>, u: int)
    requires u in users
    ensures u in Run(users, calls) && Run(users, calls)[u] == users[u]
    decreases |calls|
  {
    if |calls| > 0 {
      var next := AfterStart(users, calls[0].user, calls[0].intent, calls[0].freshCode);
      FirstRegistrationKept(next, calls[1..], u);
    }
  }

  /** No user is recorded as their own referrer. */
  predicate NoSelfReferral(users: map<int, UserRow>) {
    forall u :: u in users ==> users[u].referredBy != Some(u)
  }

  /** A contest `/start` keeps `NoSelfReferral`, whatever the code tables hold. */
  lemma ContestStartKeepsNoSelfReferral(users: map<int, UserRow>, user: int, args: seq<string>,
                                        refs: map<string, int>, events: map<string, int>, freshCode: string)
    requires NoSelfReferral(users)
    ensures NoSelfReferral(AfterStart(users, user, ContestResolve(args, user, refs, events), freshCode))
  {
  }

  /**
   * The multipurpose bot has no self check, yet keeps `NoSelfReferral` too:
   * a referral code belongs to a registered user, and only unregistered
   * callers get a row.
   */
  lemma MultipurposeStartKeepsNoSelfReferral(users: map<int, UserRow>, user: int, args: seq<string>,
                                             refs: map<string, int>, active: map<string, int>, freshCode: string)
    requires NoSelfReferral(users)
    requires forall c :: c in refs ==> refs[c] in users
    ensures NoSelfReferral(AfterStart(users, user, MultipurposeResolve(args, refs, active), freshCode))
  {
    var r := MultipurposeResolve(args, refs, active);
    if user !in users && r.referredBy.Some? {
      var c :| c in refs && refs[c] == r.referredBy.value;
    }
  }

  /**
   * The registration step of every `start`: `get_user`, then `add_user`
   * for a caller not yet known. Returns the caller's referral code, or
   * `None` after the join prompt.
   */
  method StartRegistration(store: ReferralStore, user: int, intent: StartIntent, freshCode: string)
    returns (code: Option<string>)
    requires store.Valid() && freshCode !in store.userByCode
    modifies store
    ensures store.Valid()
    ensures store.users == AfterStart(old(store.users), user, intent, freshCode)
    ensures code == if intent.JoinPrompt? then None
                    else if user in old(store.users) then Some(old(store.users)[user].code)
                    else Some(freshCode)
    ensures store.userByCode == if intent.Register? && user !in old(store.users)
                                then old(store.userByCode)[freshCode := user] else old(store.userByCode)
    ensures store.events == old(store.events) && store.eventByCode == old(store.eventByCode)
    ensures store.participants == old(store.participants)
  {
    if intent.JoinPrompt? {
      return None;
    }
    if user in store.users {
      code := Some(store.users[user].code);
    } else {
      var c := store.AddUser(user, intent.referredBy, intent.eventId, freshCode);
      code := Some(c);
    }
  }

  /** `start` of the enhanced or stable bot. */
  method ContestStart(store: ReferralStore, user: int, args: seq<string>, freshCode: string)
    returns (intent: StartIntent, code: Option<string>)
    requires store.Valid() && freshCode !in store.userByCode
    modifies store
    ensures store.Valid()
    ensures intent == ContestResolve(args, user, old(store.userByCode), old(store.eventByCode))
    ensures store.users == AfterStart(old(store.users), user, intent, freshCode)
    ensures code == if intent.JoinPrompt? then None
                    else if user in old(store.users) then Some(old(store.users)[user].code)
                    else Some(freshCode)
    ensures store.userByCode == if intent.Register? && user !in old(store.users)
                                then old(store.userByCode)[freshCode := user] else old(store.userByCode)
    ensures store.events == old(store.events) && store.eventByCode == old(store.eventByCode)
    ensures store.participants == old(store.participants)
  {
    intent := ContestResolve(args, user, store.userByCode, store.eventByCode);
    code := StartRegistration(store, user, intent, freshCode);
  }

  /** `FixedBot.start`: referral codes only, and no event. */
  method FixedStart(store: ReferralStore, user: int, args: seq<string>, freshCode: string)
    returns (intent: StartIntent, code: Option<string>)
    requires store.Valid() && freshCode !in store.userByCode
    modifies store
    ensures store.Valid()
    ensures intent == Register(FixedResolve(args, user, old(store.userByCode)), None)
    ensures store.users == AfterStart(old(store.users), user, intent, freshCode)
    ensures code == if intent.JoinPrompt? then None
                    else if user in old(store.users) then Some(old(store.users)[user].code)
                    else Some(freshCode)
    ensures store.userByCode == if intent.Register? && user !in old(store.users)
                                then old(store.userByCode)[freshCode := user] else old(store.userByCode)
    ensures store.events == old(store.events) && store.eventByCode == old(store.eventByCode)
    ensures store.participants == old(store.participants)
  {
    intent := Register(FixedResolve(args, user, store.userByCode), None);
    code := StartRegistration(store, user, intent, freshCode);
  }

  /** `MultipurposeBot.start`: the event lookup is restricted to active events. */
  method MultipurposeStart(store: ReferralStore, user: int, args: seq<string>, freshCode: string)
    returns (intent: StartIntent, code: Option<string>)
    requires store.Valid() && freshCode !in store.userByCode
    modifies store
    ensures store.Valid()
    ensures intent == MultipurposeResolve(args, old(store.userByCode), old(store.ActiveEventCodes()))
    ensures store.users == AfterStart(old(store.users), user, intent, freshCode)
    ensures code == if intent.JoinPrompt? then None
                    else if user in old(store.users) then Some(old(store.users)[user].code)
                    else Some(freshCode)
    ensures store.userByCode == if intent.Register? && user !in old(store.users)
                                then old(store.userByCode)[freshCode := user] else old(store.userByCode)
    ensures store.events == old(store.events) && store.eventByCode == old(store.eventByCode)
    ensures store.participants == old(store.participants)
  {
    intent := MultipurposeResolve(args, store.userByCode, store.ActiveEventCodes());
    code := StartRegistration(store, user, intent, freshCode);
  }
}
