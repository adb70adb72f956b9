/**
 * Routing of inline-button presses: the `button_handler` if-chains of the
 * enhanced, stable and multipurpose bots, and the order in which the
 * multipurpose bot registers its callback handlers.
 *
 * Ids are read as `int(data.split('_')[i])`; a missing piece or a piece
 * `int()` refuses raises inside the handler's `try`, which answers with
 * an error text: that is the route `Failed`.
 */
module Callbacks {
  import opened Common
  import opened PyStr

  /** The screens a button opens without an id. */
  datatype Screen =
    | Stats | Leaderboard | MyEvents | CreateEvent | Help | BackToMenu
    | MyEventLinks | SkipGroupLink | Noop | RefCenter | MainMenu

  /** The handlers that take an event id. */
  datatype IdAction = EventStats | SendEventLink | JoinEvent | SetGroupLink

  datatype Route =
    | Open(screen: Screen)
    | WithId(action: IdAction, id: int)
    | Failed   // the id could not be read: the error reply
    | Ignored  // no branch matched: nothing happens

  /** `int(data.split('_')[i])`, or `None` where Python raises. */
  function IdAt(data: string, i: int): (r: Option<int>)
    ensures r.Some? ==> 0 <= i < |SplitOn(data, '_')| && ParseInt(SplitOn(data, '_')[i]) == r
  {
    var parts := SplitOn(data, '_');
    if 0 <= i < |parts| then ParseInt(parts[i]) else None
  }

  function ById(action: IdAction, data: string, i: int): Route {
    match IdAt(data, i)
    case Some(n) => WithId(action, n)
    case None => Failed
  }

  /** An id route comes from its own prefix, with the id read from its position in the data. */
  predicate IdFromPrefix(r: Route, data: string) {
    r.WithId? ==>
      match r.action
      case EventStats => StartsWith(data, "event_") && IdAt(data, 1) == Some(r.id)
      case SendEventLink => StartsWith(data, "event_link_") && IdAt(data, 2) == Some(r.id)
      case JoinEvent => StartsWith(data, "join_event_") && IdAt(data, 2) == Some(r.id)
      case SetGroupLink => StartsWith(data, "set_group_") && IdAt(data, 2) == Some(r.id)
  }

  /** `EnhancedBot.button_handler`: `"event_"` is checked before `"event_link_"`. */
  function EnhancedDispatch(data: string): (r: Route)
    ensures IdFromPrefix(r, data)
    ensures r == Failed ==>
      StartsWith(data, "event_") || StartsWith(data, "join_event_") || StartsWith(data, "set_group_")
    ensures r == Ignored ==> !StartsWith(data, "event_") && !StartsWith(data, "join_event_") && !StartsWith(data, "set_group_")
  {
    if data == "stats" then Open(Stats)
    else if data == "leaderboard" then Open(Leaderboard)
    else if data == "my_events" then Open(MyEvents)
    else if data == "create_event" then Open(CreateEvent)
    else if data == "help" then Open(Help)
    else if data == "back_to_menu" then Open(BackToMenu)
    else if StartsWith(data, "event_") then ById(EventStats, data, 1)
    else if StartsWith(data, "event_link_") then ById(SendEventLink, data, 2)
    else if data == "my_event_links" then Open(MyEventLinks)
    else if StartsWith(data, "join_event_") then ById(JoinEvent, data, 2)
    else if StartsWith(data, "set_group_") then ById(SetGroupLink, data, 2)
    else if data == "skip_group_link" then Open(SkipGroupLink)
    else Ignored
  }

  /** `StableBot.button_handler`: only the stats and join buttons carry an id. */
  function StableDispatch(data: string): (r: Route)
    ensures IdFromPrefix(r, data)
    ensures r.WithId? ==> r.action == EventStats || r.action == JoinEvent
    ensures r == Failed ==> StartsWith(data, "event_") || StartsWith(data, "join_event_")
    ensures r == Ignored ==> !StartsWith(data, "event_") && !StartsWith(data, "join_event_")
  {
    if data == "stats" then Open(Stats)
    else if data == "leaderboard" then Open(Leaderboard)
    else if data == "my_events" then Open(MyEvents)
    else if data == "create_event" then Open(CreateEvent)
    else if data == "help" then Open(Help)
    else if data == "back_to_menu" then Open(BackToMenu)
    else if StartsWith(data, "event_") then ById(EventStats, data, 1)
    else if StartsWith(data, "join_event_") then ById(JoinEvent, data, 2)
    else Ignored
  }

  /** `MultipurposeBot.button_handler`: the same order of `"event_"` and `"event_link_"`. */
  function MultipurposeDispatch(data: string): (r: Route)
    ensures IdFromPrefix(r, data)
    ensures r == Failed ==>
      StartsWith(data, "event_") || StartsWith(data, "join_event_") || StartsWith(data, "set_group_")
    ensures r == Ignored ==> !StartsWith(data, "event_") && !StartsWith(data, "join_event_") && !StartsWith(data, "set_group_")
  {
    if data == "noop" then Open(Noop)
    else if data == "ref_center" then Open(RefCenter)
    else if data == "main_menu" then Open(MainMenu)
    else if data == "help" then Open(Help)
    else if data == "stats" then Open(Stats)
    else if data == "leaderboard" then Open(Leaderboard)
    else if data == "my_events" then Open(MyEvents)
    else if data == "create_event" then Open(CreateEvent)
    else if data == "my_event_links" then Open(MyEventLinks)
    else if StartsWith(data, "event_") then ById(EventStats, data, 1)
    else if StartsWith(data, "event_link_") then ById(SendEventLink, data, 2)
    else if StartsWith(data, "join_event_") then ById(JoinEvent, data, 2)
    else if StartsWith(data, "set_group_") then ById(SetGroupLink, data, 2)
    else if data == "skip_group_link" then Open(SkipGroupLink)
    else Ignored
  }

  /** The dispatch with the `"event_link_"` test moved in front of the `"event_"` test. */
  function IntendedDispatch(asWritten: Route, data: string): Route {
    if StartsWith(data, "event_link_") then ById(SendEventLink, data, 2) else asWritten
  }

  lemma EventLinkIsEvent(data: string)
    requires StartsWith(data, "event_link_")
    ensures StartsWith(data, "event_")
  {
    assert data[..6] == data[..11][..6];
  }

  /** As written, no button press of the enhanced or multipurpose bot ever reaches `send_event_link`. */
  lemma NoRouteToSendEventLink(data: string)
    ensures !(EnhancedDispatch(data).WithId? && EnhancedDispatch(data).action == SendEventLink)
    ensures !(MultipurposeDispatch(data).WithId? && MultipurposeDispatch(data).action == SendEventLink)
  {
    if StartsWith(data, "event_link_") {
      EventLinkIsEvent(data);
    }
  }

  /** `int()` refuses a piece that starts with a letter. */
  lemma LetterPieceRefused(s: string)
    requires NoSpace(s) && |s| > 0 && 'a' <= s[0] <= 'z'
    ensures ParseInt(s) == None
  {
    StripNoSpace(s);
  }

  lemma NatToStringNoSep(n: nat)
    ensures '_' !in NatToString(n)
  {
  }

  lemma PrefixDiffers(s: string, p: string)
    requires |s| > 0 && |p| > 0 && s[0] != p[0]
    ensures !StartsWith(s, p)
  {
  }

  /** The pieces of `"<a>_<b>_<n>"` for a button id `n`: the second is `b` and the third reads back as `n`. */
  lemma ButtonPieces(a: string, b: string, n: nat)
    requires '_' !in a && '_' !in b
    ensures IdAt(a + "_" + b + "_" + NatToString(n), 1) == ParseInt(b)
    ensures IdAt(a + "_" + b + "_" + NatToString(n), 2) == Some(n)
  {
    NatToStringNoSep(n);
    SplitOnThree(a, b, NatToString(n), '_');
    assert a + "_" + b + "_" + NatToString(n) == a + ['_'] + b + ['_'] + NatToString(n);
    ParseIntToString(n);
  }

  /** The piece after `"<a>_"` in `"<a>_<n>"`. */
  lemma ButtonPiece(a: string, n: nat)
    requires '_' !in a
    ensures IdAt(a + "_" + NatToString(n), 1) == Some(n)
  {
    NatToStringNoSep(n);
    SplitOnJoinTwo(a, NatToString(n), '_');
    assert a + "_" + NatToString(n) == a + ['_'] + NatToString(n);
    ParseIntToString(n);
  }

  /** Every `event_...` press goes to the statistics branch, in all three bots. */
  lemma EventPrefixRoute(data: string)
    requires StartsWith(data, "event_")
    ensures EnhancedDispatch(data) == ById(EventStats, data, 1)
    ensures StableDispatch(data) == ById(EventStats, data, 1)
    ensures MultipurposeDispatch(data) == ById(EventStats, data, 1)
  {
    assert data[0] == 'e';
  }

  /** Every `join_event_...` press goes to the join branch. */
  lemma JoinPrefixRoute(data: string)
    requires StartsWith(data, "join_event_")
    ensures EnhancedDispatch(data) == ById(JoinEvent, data, 2)
    ensures StableDispatch(data) == ById(JoinEvent, data, 2)
    ensures MultipurposeDispatch(data) == ById(JoinEvent, data, 2)
  {
    assert data[0] == 'j';
    PrefixDiffers(data, "event_");
    PrefixDiffers(data, "event_link_");
  }

  /** Every `set_group_...` press goes to the group-link branch. */
  lemma SetGroupPrefixRoute(data: string)
    requires StartsWith(data, "set_group_")
    ensures EnhancedDispatch(data) == ById(SetGroupLink, data, 2)
    ensures MultipurposeDispatch(data) == ById(SetGroupLink, data, 2)
  {
    assert data[0] == 's' && data[1] == 'e';
    PrefixDiffers(data, "event_");
    PrefixDiffers(data, "event_link_");
    PrefixDiffers(data, "join_event_");
  }

  /** The button `event_link_<id>` (enhanced_bot.py lines 658 and 793) gets the error reply. */
  lemma EventLinkButtonFails(n: nat)
    ensures EnhancedDispatch("event_link_" + NatToString(n)) == Failed
    ensures MultipurposeDispatch("event_link_" + NatToString(n)) == Failed
  {
    var data := "event_link_" + NatToString(n);
    EventLinkPieces(n);
    EventPrefixRoute(data);
  }

  /** `"event_link_<id>"` starts with `"event_"`, and its piece 1, `"link"`, is not a number. */
  lemma EventLinkPieces(n: nat)
    ensures StartsWith("event_link_" + NatToString(n), "event_")
    ensures IdAt("event_link_" + NatToString(n), 1) == None
  {
    EventLinkShape(n);
    LinkPieceRefused();
    assert ("event_link_" + NatToString(n))[..6] == "event_";
  }

  /** The literal split into its `_` pieces, for `EventLinkShape`; kept apart because unfolding it inline there is costly. */
  lemma EventLinkSpelled(n: nat)
    ensures "event_link_" + NatToString(n) == "event" + "_" + "link" + "_" + NatToString(n)
  {
  }

  lemma EventLinkShape(n: nat)
    ensures IdAt("event_link_" + NatToString(n), 1) == ParseInt("link")
  {
    EventLinkSpelled(n);
    ButtonPieces("event", "link", n);
  }

  lemma LinkPieceRefused()
    ensures ParseInt("link") == None
  {
    LetterPieceRefused("link");
  }

  /** With the tests swapped, the same button reaches `send_event_link` with its id. */
  lemma IntendedEventLinkButton(n: nat)
    ensures IntendedDispatch(EnhancedDispatch("event_link_" + NatToString(n)), "event_link_" + NatToString(n))
         == WithId(SendEventLink, n)
    ensures IntendedDispatch(MultipurposeDispatch("event_link_" + NatToString(n)), "event_link_" + NatToString(n))
         == WithId(SendEventLink, n)
  {
    var data := "event_link_" + NatToString(n);
    assert data == "event" + "_" + "link" + "_" + NatToString(n);
    ButtonPieces("event", "link", n);
    assert data[..11] == "event_link_";
  }

  /** The swap changes nothing for any other button. */
  lemma IntendedDispatchElsewhere(data: string)
    requires !StartsWith(data, "event_link_")
    ensures IntendedDispatch(EnhancedDispatch(data), data) == EnhancedDispatch(data)
    ensures IntendedDispatch(MultipurposeDispatch(data), data) == MultipurposeDispatch(data)
  {
  }

  lemma EventStatsShape(n: nat)
    ensures StartsWith("event_" + NatToString(n), "event_")
    ensures IdAt("event_" + NatToString(n), 1) == Some(n)
  {
    EventStatsSpelled(n);
    ButtonPiece("event", n);
  }

  /** The literal split into its `_` pieces, for `EventStatsShape`; kept apart because unfolding it inline there is costly. */
  lemma EventStatsSpelled(n: nat)
    ensures "event_" + NatToString(n) == "event" + "_" + NatToString(n)
  {
  }

  lemma JoinEventShape(n: nat)
    ensures StartsWith("join_event_" + NatToString(n), "join_event_")
    ensures IdAt("join_event_" + NatToString(n), 2) == Some(n)
  {
    JoinEventSpelled(n);
    ButtonPieces("join", "event", n);
  }

  /** The literal split into its `_` pieces, for `JoinEventShape`; kept apart because unfolding it inline there is costly. */
  lemma JoinEventSpelled(n: nat)
    ensures "join_event_" + NatToString(n) == "join" + "_" + "event" + "_" + NatToString(n)
  {
  }

  lemma SetGroupShape(n: nat)
    ensures StartsWith("set_group_" + NatToString(n), "set_group_")
    ensures IdAt("set_group_" + NatToString(n), 2) == Some(n)
  {
    SetGroupSpelled(n);
    ButtonPieces("set", "group", n);
  }

  /** The literal split into its `_` pieces, for `SetGroupShape`; kept apart because unfolding it inline there is costly. */
  lemma SetGroupSpelled(n: nat)
    ensures "set_group_" + NatToString(n) == "set" + "_" + "group" + "_" + NatToString(n)
  {
  }

  /** The button `event_<id>` opens that event's statistics in all three bots. */
  lemma EventStatsButton(n: nat)
    ensures EnhancedDispatch("event_" + NatToString(n)) == WithId(EventStats, n)
    ensures StableDispatch("event_" + NatToString(n)) == WithId(EventStats, n)
    ensures MultipurposeDispatch("event_" + NatToString(n)) == WithId(EventStats, n)
  {
    var data := "event_" + NatToString(n);
    EventStatsShape(n);
    EventPrefixRoute(data);
  }

  /** The button `join_event_<id>` joins that event. */
  lemma JoinEventButton(n: nat)
    ensures EnhancedDispatch("join_event_" + NatToString(n)) == WithId(JoinEvent, n)
    ensures StableDispatch("join_event_" + NatToString(n)) == WithId(JoinEvent, n)
    ensures MultipurposeDispatch("join_event_" + NatToString(n)) == WithId(JoinEvent, n)
  {
    var data := "join_event_" + NatToString(n);
    JoinEventShape(n);
    JoinPrefixRoute(data);
  }

  /** The button `set_group_<id>` starts the group-link dialogue for that event. */
  lemma SetGroupButton(n: nat)
    ensures EnhancedDispatch("set_group_" + NatToString(n)) == WithId(SetGroupLink, n)
    ensures MultipurposeDispatch("set_group_" + NatToString(n)) == WithId(SetGroupLink, n)
  {
    var data := "set_group_" + NatToString(n);
    SetGroupShape(n);
    SetGroupPrefixRoute(data);
  }

  // ----- Handler registration (multipurpose_bot.py) -----

  /** The handlers a callback query can reach. */
  datatype CallbackHandler = ButtonHandler | GroupConfigCallback | ApprovalCallback

  /** A `CallbackQueryHandler`: its `pattern` (a `^`-anchored prefix), or none, which accepts every query. */
  datatype Registration = Registration(prefix: Option<string>, handler: CallbackHandler)

  predicate Accepts(r: Registration, data: string) {
    r.prefix.None? || StartsWith(data, r.prefix.value)
  }

  /**
   * The handler that runs: the first registration of the (single) handler
   * group accepting the query, as python-telegram-bot dispatches.
   */
  function FirstAccepting(regs: seq<Registration>, data: string): (r: Option<CallbackHandler>)
    ensures r.Some? <==> exists i :: 0 <= i < |regs| && Accepts(regs[i], data)
    ensures r.Some? ==> exists i :: 0 <= i < |regs| && Accepts(regs[i], data) && regs[i].handler == r.value &&
                          forall j :: 0 <= j < i ==> !Accepts(regs[j], data)
  {
    if |regs| == 0 then None
    else if Accepts(regs[0], data) then Some(regs[0].handler)
    else
      var r := FirstAccepting(regs[1..], data);
      assert forall i :: 1 <= i < |regs| ==> regs[i] == regs[1..][i - 1];
      if r.Some? then
        ghost var k :| 0 <= k < |regs[1..]| && Accepts(regs[1..][k], data) && regs[1..][k].handler == r.value &&
                       forall j :: 0 <= j < k ==> !Accepts(regs[1..][j], data);
        assert Accepts(regs[k + 1], data) && forall j :: 0 <= j < k + 1 ==> !Accepts(regs[j], data);
        r
      else r
  }

  /** Registration order as written: the pattern-less button handler first. */
  const CallbackRegistrations := [
    Registration(None, ButtonHandler),
    Registration(Some("gc:"), GroupConfigCallback),
    Registration(Some("approve:"), ApprovalCallback)]

  /** The pattern handlers registered before the catch-all. */
  const IntendedCallbackRegistrations := [
    Registration(Some("gc:"), GroupConfigCallback),
    Registration(Some("approve:"), ApprovalCallback),
    Registration(None, ButtonHandler)]

  /**
   * As written, every query goes to `button_handler`, and a settings button
   * `gc:...` matches none of its branches: the settings panel never changes.
   */
  lemma ConfigButtonsUnreachable(data: string)
    ensures FirstAccepting(CallbackRegistrations, data) == Some(ButtonHandler)
    ensures StartsWith(data, "gc:") ==> MultipurposeDispatch(data) == Ignored
  {
    if StartsWith(data, "gc:") {
      assert data[0] == 'g' && data[1] == 'c';
      PrefixDiffers(data, "event_");
      PrefixDiffers(data, "event_link_");
      PrefixDiffers(data, "join_event_");
      PrefixDiffers(data, "set_group_");
    }
  }

  /** With the pattern handlers first, each query reaches the handler its prefix names. */
  lemma IntendedCallbackRouting(data: string)
    ensures StartsWith(data, "gc:") ==> FirstAccepting(IntendedCallbackRegistrations, data) == Some(GroupConfigCallback)
    ensures StartsWith(data, "approve:") ==> FirstAccepting(IntendedCallbackRegistrations, data) == Some(ApprovalCallback)
    ensures !StartsWith(data, "gc:") && !StartsWith(data, "approve:") ==>
              FirstAccepting(IntendedCallbackRegistrations, data) == Some(ButtonHandler)
  {
    var regs := IntendedCallbackRegistrations;
    assert regs[1..][1..] == [regs[2]];
    if StartsWith(data, "approve:") {
      assert data[0] == 'a';
      PrefixDiffers(data, "gc:");
    }
  }
}
