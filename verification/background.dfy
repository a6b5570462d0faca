/**
 * The extension's background service worker
 * (chrome-extension/src/background.ts): the stored list of modes, the stored
 * active-mode snapshot, and the installed dynamic blocking rules, with the
 * handlers the popup reaches through runtime messages.
 *
 * `chrome.storage.local` is modelled by the fields `modes` and `activeMode`
 * (an absent key reads as the empty list and as no active mode, as the
 * handlers' `|| []` and `|| null` do); the declarativeNetRequest dynamic rule
 * set is the field `rules`. Each handler runs to completion before the next
 * message is handled.
 */
module Background {
  import opened Wrappers
  import opened Seqs
  import opened BlockingRules

  /** A blocking mode as stored: a named list of websites. */
  datatype Mode = Mode(id: string, name: string, websites: seq<string>, createdAt: string)

  /** The `mode` payload of CREATE_MODE and UPDATE_MODE; its `websites` may be absent. */
  datatype ModeInput = ModeInput(name: string, websites: Option<seq<string>>)

  /** `mode.websites || []`. */
  function WebsitesOrEmpty(input: ModeInput): (ws: seq<string>)
    ensures input.websites.Some? ==> ws == input.websites.value
    ensures input.websites.None? ==> ws == []
  {
    if input.websites.Some? then input.websites.value else []
  }

  /** The failures a handler reports back to the popup. */
  datatype Failure =
    | ModeNotFound
      /** `updateBlockingRules(undefined)` throws when it reaches `websites.forEach`. */
    | WebsitesUndefined

  function FailureText(f: Failure): string
  {
    match f
    case ModeNotFound => "Mode not found"
    case WebsitesUndefined => "Cannot read properties of undefined (reading 'forEach')"
  }

  datatype Outcome = Done | Failed(failure: Failure)

  /** The `type` values the `onMessage` switch has a case for. */
  const KnownTypes: set<string> := {
    "GET_MODES", "GET_ACTIVE_MODE", "CREATE_MODE", "UPDATE_MODE", "DELETE_MODE",
    "START_BLOCKING_SESSION", "STOP_BLOCKING_SESSION", "REQUEST_UNLOCK"
  }

  /** A runtime message, by its `type` field; `Unknown` stands for every type not in `KnownTypes`. */
  datatype Message =
    | GetModes
    | GetActiveMode
    | CreateMode(mode: ModeInput)
    | UpdateMode(modeId: string, mode: ModeInput)
    | DeleteMode(modeId: string)
    | StartBlockingSession(modeId: string)
    | StopBlockingSession
    | RequestUnlock(url: string)
    | Unknown(kind: string)

  datatype Payload = NoData | ModesData(modes: seq<Mode>) | ActiveModeData(active: Option<Mode>)

  /** The object passed to `sendResponse`. */
  datatype Response = Response(success: bool, data: Payload, error: Option<string>)

  function ResponseFor(outcome: Outcome): (r: Response)
    ensures r.success <==> outcome == Done
    ensures r.data == NoData
    ensures r.error.None? <==> outcome == Done
    ensures outcome.Failed? ==> r.error == Some(FailureText(outcome.failure))
  {
    match outcome
    case Done => Response(true, NoData, None)
    case Failed(f) => Response(false, NoData, Some(FailureText(f)))
  }

  /** `modes.findIndex(m => m.id === id)`, with `None` for -1. */
  function FindIndex(modes: seq<Mode>, id: string): (r: Option<nat>)
    ensures r.None? <==> forall k :: 0 <= k < |modes| ==> modes[k].id != id
    ensures r.Some? ==> r.value < |modes| && modes[r.value].id == id
    ensures r.Some? ==> forall k :: 0 <= k < r.value ==> modes[k].id != id
  {
    if modes == [] then None
    else if modes[0].id == id then Some(0)
    else
      match FindIndex(modes[1..], id)
      case None => None
      case Some(k) => Some(k + 1)
  }

  /** `modes.filter(mode => mode.id !== id)`. */
  function WithoutMode(modes: seq<Mode>, id: string): (r: seq<Mode>)
    ensures forall m :: m in r <==> m in modes && m.id != id
    ensures forall m :: multiset(r)[m] == if m.id != id then multiset(modes)[m] else 0
    ensures IsSubsequence(r, modes)
  {
    var keep := (m: Mode) => m.id != id;
    FilterSpec(modes, keep);
    var r := Filter(modes, keep);
    assert forall m :: m in r <==> m in modes && m.id != id by {
      forall m ensures m in r <==> m in modes && m.id != id {
        assert m in r <==> multiset(r)[m] > 0;
        assert m in modes <==> multiset(modes)[m] > 0;
      }
    }
    r
  }

  /** Whether the stored snapshot is the mode with this id (`activeMode && activeMode.id === id`). */
  predicate IsActiveId(active: Option<Mode>, id: string)
  {
    active.Some? && active.value.id == id
  }

  /** The websites the installed rules should block: those of the active snapshot, or none. */
  function ActiveWebsites(active: Option<Mode>): seq<string>
  {
    if active.Some? then active.value.websites else []
  }

  class Worker {
    var modes: seq<Mode>
    var activeMode: Option<Mode>
    var rules: seq<Rule>

    /** The worker as it finds the storage and the dynamic rules when it starts. */
    constructor (storedModes: seq<Mode>, storedActive: Option<Mode>, installed: seq<Rule>)
      ensures modes == storedModes && activeMode == storedActive && rules == installed
    {
      modes, activeMode, rules := storedModes, storedActive, installed;
    }

    /** The installed rules are exactly those of the active snapshot's websites. */
    predicate RulesMatchActive()
      reads this
    {
      rules == Translate(ActiveWebsites(activeMode))
    }

    method GetModes() returns (ms: seq<Mode>)
      ensures ms == modes
    {
      ms := modes;
    }

    method GetActiveMode() returns (m: Option<Mode>)
      ensures m == activeMode
    {
      m := activeMode;
    }

    /**
     * updateBlockingRules: remove every installed rule id, then add the
     * translation of `websites`.
     */
    method UpdateBlockingRules(websites: seq<string>)
      modifies this`rules
      ensures rules == Translate(websites)
    {
      var existingIds := IdsOf(rules);
      var newRules := BuildRules(websites);
      var kept := WithoutIds(rules, existingIds);
      WithoutAllIds(rules, existingIds);
      rules := kept + newRules;
    }

    /** createMode: append one mode; the id and timestamp are the caller's clock readings. */
    method CreateMode(input: ModeInput, newId: string, createdAt: string)
      modifies this`modes
      ensures modes == old(modes) + [Mode(newId, input.name, WebsitesOrEmpty(input), createdAt)]
      ensures RulesMatchActive() == old(RulesMatchActive())
    {
      var newMode := Mode(newId, input.name, WebsitesOrEmpty(input), createdAt);
      modes := modes + [newMode];
    }

    /**
     * updateMode: rewrite name and websites of the first mode with this id,
     * keeping its id and creation time. When that mode is the active one the
     * rules are reinstalled from the request's websites, but the stored
     * active snapshot is left as it was.
     */
    method UpdateMode(id: string, input: ModeInput) returns (outcome: Outcome)
      modifies this`modes, this`rules
      ensures FindIndex(old(modes), id).None? ==>
        outcome == Failed(ModeNotFound) && modes == old(modes) && rules == old(rules)
      ensures FindIndex(old(modes), id).Some? ==>
        var k := FindIndex(old(modes), id).value;
        var m := old(modes)[k];
        modes == old(modes)[k := Mode(m.id, input.name, WebsitesOrEmpty(input), m.createdAt)]
      ensures FindIndex(old(modes), id).Some? && !IsActiveId(activeMode, id) ==>
        outcome == Done && rules == old(rules)
      ensures FindIndex(old(modes), id).Some? && IsActiveId(activeMode, id) && input.websites.Some? ==>
        outcome == Done && rules == Translate(input.websites.value)
      ensures FindIndex(old(modes), id).Some? && IsActiveId(activeMode, id) && input.websites.None? ==>
        outcome == Failed(WebsitesUndefined) && rules == old(rules)
      ensures !IsActiveId(activeMode, id) ==> RulesMatchActive() == old(RulesMatchActive())
    {
      var index := FindIndex(modes, id);
      if index.None? {
        return Failed(ModeNotFound);
      }
      var k := index.value;
      modes := modes[k := Mode(modes[k].id, input.name, WebsitesOrEmpty(input), modes[k].createdAt)];
      var active := this.GetActiveMode();
      if IsActiveId(active, id) {
        if input.websites.None? {
          return Failed(WebsitesUndefined);
        }
        UpdateBlockingRules(input.websites.value);
      }
      outcome := Done;
    }

    /** stopBlockingSession: clear the snapshot and install no rules. */
    method StopBlockingSession()
      modifies this`activeMode, this`rules
      ensures activeMode == None && rules == []
      ensures RulesMatchActive()
    {
      activeMode := None;
      UpdateBlockingRules([]);
    }

    /**
     * deleteMode: drop every mode with this id (an unknown id is not an
     * error); if the snapshot has this id, stop the blocking session.
     */
    method DeleteMode(id: string)
      modifies this
      ensures modes == WithoutMode(old(modes), id)
      ensures IsActiveId(old(activeMode), id) ==> activeMode == None && rules == []
      ensures !IsActiveId(old(activeMode), id) ==> activeMode == old(activeMode) && rules == old(rules)
      ensures old(RulesMatchActive()) ==> RulesMatchActive()
    {
      modes := WithoutMode(modes, id);
      var active := this.GetActiveMode();
      if IsActiveId(active, id) {
        this.StopBlockingSession();
      }
    }

    /**
     * startBlockingSession: the first mode with this id becomes the snapshot
     * and its websites the installed rules; an unknown id changes nothing.
     */
    method StartBlockingSession(id: string) returns (outcome: Outcome)
      modifies this`activeMode, this`rules
      ensures FindIndex(modes, id).None? ==>
        outcome == Failed(ModeNotFound) && activeMode == old(activeMode) && rules == old(rules)
      ensures FindIndex(modes, id).Some? ==>
        outcome == Done && activeMode == Some(modes[FindIndex(modes, id).value])
        && rules == Translate(activeMode.value.websites)
      ensures outcome == Done ==> RulesMatchActive()
    {
      var index := FindIndex(modes, id);
      if index.None? {
        return Failed(ModeNotFound);
      }
      var mode := modes[index.value];
      activeMode := Some(mode);
      UpdateBlockingRules(mode.websites);
      outcome := Done;
    }

    /** The reload at start-up: reinstall the rules of the stored snapshot, if there is one. */
    method ReloadRules()
      modifies this`rules
      ensures activeMode.Some? ==> rules == Translate(activeMode.value.websites) && RulesMatchActive()
      ensures activeMode.None? ==> rules == old(rules)
    {
      var active := this.GetActiveMode();
      if active.Some? {
        UpdateBlockingRules(active.value.websites);
      }
    }

    /**
     * The `onMessage` switch. `newId` and `createdAt` are the readings of
     * `Date.now()` and `new Date()` a CREATE_MODE message would take.
     */
    method Dispatch(msg: Message, newId: string, createdAt: string) returns (resp: Response)
      requires msg.Unknown? ==> msg.kind !in KnownTypes
      modifies this
      ensures msg.Unknown? ==>
        resp == Response(false, NoData, Some("Unknown message type"))
        && modes == old(modes) && activeMode == old(activeMode) && rules == old(rules)
      ensures msg.GetModes? ==>
        resp == Response(true, ModesData(old(modes)), None)
        && modes == old(modes) && activeMode == old(activeMode) && rules == old(rules)
      ensures msg.GetActiveMode? ==>
        resp == Response(true, ActiveModeData(old(activeMode)), None)
        && modes == old(modes) && activeMode == old(activeMode) && rules == old(rules)
      ensures msg.RequestUnlock? ==>
        resp == Response(true, NoData, None)
        && modes == old(modes) && activeMode == old(activeMode) && rules == old(rules)
      ensures msg.CreateMode? ==>
        resp == Response(true, NoData, None)
        && modes == old(modes) + [Mode(newId, msg.mode.name, WebsitesOrEmpty(msg.mode), createdAt)]
        && activeMode == old(activeMode) && rules == old(rules)
      ensures msg.UpdateMode? ==>
        (resp.success <==> FindIndex(old(modes), msg.modeId).Some? && (IsActiveId(old(activeMode), msg.modeId) ==> msg.mode.websites.Some?))
        && activeMode == old(activeMode)
      ensures msg.UpdateMode? && FindIndex(old(modes), msg.modeId).None? ==>
        resp.error == Some("Mode not found") && modes == old(modes) && rules == old(rules)
      ensures msg.DeleteMode? ==>
        resp == Response(true, NoData, None) && modes == WithoutMode(old(modes), msg.modeId)
        && (IsActiveId(old(activeMode), msg.modeId) ==> activeMode == None && rules == [])
        && (!IsActiveId(old(activeMode), msg.modeId) ==> activeMode == old(activeMode) && rules == old(rules))
      ensures msg.StartBlockingSession? && FindIndex(old(modes), msg.modeId).None? ==>
        resp == Response(false, NoData, Some("Mode not found"))
        && modes == old(modes) && activeMode == old(activeMode) && rules == old(rules)
      ensures msg.StartBlockingSession? && FindIndex(old(modes), msg.modeId).Some? ==>
        resp == Response(true, NoData, None) && modes == old(modes)
        && activeMode == Some(old(modes)[FindIndex(old(modes), msg.modeId).value])
        && RulesMatchActive()
      ensures msg.StopBlockingSession? ==>
        resp == Response(true, NoData, None) && modes == old(modes) && activeMode == None && rules == []
    {
      match msg {
        case GetModes =>
          var ms := this.GetModes();
          resp := Response(true, ModesData(ms), None);
        case GetActiveMode =>
          var m := this.GetActiveMode();
          resp := Response(true, ActiveModeData(m), None);
        case CreateMode(input) =>
          this.CreateMode(input, newId, createdAt);
          resp := ResponseFor(Done);
        case UpdateMode(id, input) =>
          var outcome := this.UpdateMode(id, input);
          resp := ResponseFor(outcome);
        case DeleteMode(id) =>
          this.DeleteMode(id);
          resp := ResponseFor(Done);
        case StartBlockingSession(id) =>
          var outcome := this.StartBlockingSession(id);
          resp := ResponseFor(outcome);
        case StopBlockingSession =>
          this.StopBlockingSession();
          resp := ResponseFor(Done);
        case RequestUnlock(_) =>
          resp := ResponseFor(Done);
        case Unknown(_) =>
          resp := Response(false, NoData, Some("Unknown message type"));
      }
    }
  }
}
