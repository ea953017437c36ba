/**
 * The `DOMContentLoaded` handler: run both probes, block the page when either
 * reports private mode, otherwise provision the device token and wire the start
 * button to the voting page. The browser window is a `Page` object whose fields
 * stand for `localStorage`, the document body, the alerts shown, the click
 * listeners of `#startVoteButton` and `window.location.href`.
 */
module AccessGate {

  import opened Wrappers
  import opened Js
  import opened Probes
  import opened DeviceToken

  /** The page the start button navigates to. */
  const VOTE_PAGE: string := "vote.html"

  /** The two terminal states of the gate. */
  datatype Outcome = Blocked | Allowed

  /** The document body: as served, or replaced by the centred red warning. */
  datatype Body = OriginalBody | PrivateModeWarning

  /** The only alert the gate shows: voting is not possible in private mode. */
  datatype Alert = PrivateModeAlert

  /** Everything one page load depends on: the probes' outcomes and the UUID the generator returns. */
  datatype LoadInput = LoadInput(idb: IdbOutcome, fsApis: FileSystemApis, fsReply: FsCallback, uuid: string)

  /** Which terminal state the gate reaches, given the probes' outcomes. */
  function GateOutcome(idb: IdbOutcome, fsApis: FileSystemApis, fsReply: FsCallback): (r: Outcome)
    ensures r == Blocked <==> idb != SuccessEvent || ((fsApis.standard || fsApis.webkit) && fsReply == ErrorCallback)
  {
    CombinedTruthTable(idb, fsApis, fsReply);
    if Truthy(Combined(IdbVerdict(idb), FsVerdict(fsApis, fsReply))) then Blocked else Allowed
  }

  function LoadOutcome(load: LoadInput): Outcome
  {
    GateOutcome(load.idb, load.fsApis, load.fsReply)
  }

  /** The durable storage after some page loads, and how many writes they made to it. */
  datatype StorageHistory = StorageHistory(storage: map<string, string>, writes: nat)

  /** The effect of one page load on `localStorage`: nothing when blocked, one provisioning when allowed. */
  function LoadEffect(storage: map<string, string>, load: LoadInput): (r: StorageHistory)
    ensures LoadOutcome(load) == Blocked ==> r == StorageHistory(storage, 0)
    ensures r.storage - {DEVICE_TOKEN_KEY} == storage - {DEVICE_TOKEN_KEY}
    ensures r.writes <= 1
    ensures r.writes == 1 <==> LoadOutcome(load) == Allowed && !HasToken(storage)
    ensures LoadOutcome(load) == Allowed ==> DEVICE_TOKEN_KEY in r.storage
    ensures LoadOutcome(load) == Allowed && HasToken(storage) ==> r.storage == storage
    ensures LoadOutcome(load) == Allowed && !HasToken(storage) ==> r.storage[DEVICE_TOKEN_KEY] == load.uuid
  {
    if LoadOutcome(load) == Blocked then StorageHistory(storage, 0)
    else
      var p := Provision(storage, load.uuid);
      StorageHistory(p.storage, if p.wrote then 1 else 0)
  }

  /**
   * Successive page loads in one storage origin: `localStorage` persists from
   * one load to the next. No key other than "device_token" ever changes, and
   * once a token is present it stays.
   */
  function Run(storage: map<string, string>, loads: seq<LoadInput>): (r: StorageHistory)
    ensures r.storage - {DEVICE_TOKEN_KEY} == storage - {DEVICE_TOKEN_KEY}
    ensures HasToken(storage) ==> HasToken(r.storage)
    decreases |loads|
  {
    if loads == [] then StorageHistory(storage, 0)
    else
      var first := LoadEffect(storage, loads[0]);
      var rest := Run(first.storage, loads[1..]);
      StorageHistory(rest.storage, first.writes + rest.writes)
  }

  /** The index of the first load that the gate allows, if any. */
  function FirstAllowed(loads: seq<LoadInput>): (r: Option<nat>)
    ensures r.None? ==> forall j :: 0 <= j < |loads| ==> LoadOutcome(loads[j]) == Blocked
    ensures r.Some? ==> r.value < |loads| && LoadOutcome(loads[r.value]) == Allowed
    ensures r.Some? ==> forall j :: 0 <= j < r.value ==> LoadOutcome(loads[j]) == Blocked
    decreases |loads|
  {
    if loads == [] then None
    else if LoadOutcome(loads[0]) == Allowed then Some(0)
    else
      match FirstAllowed(loads[1..])
      case None => None
      case Some(i) => Some(i + 1)
  }

  /**
   * Once storage holds a token, no later page load writes to it or changes
   * anything in it, whatever the probes report.
   */
  lemma {:induction false} ExistingTokenIsKept(storage: map<string, string>, loads: seq<LoadInput>)
    requires HasToken(storage)
    ensures Run(storage, loads) == StorageHistory(storage, 0)
    decreases |loads|
  {
    if loads != [] {
      ExistingTokenIsKept(storage, loads[1..]);
    }
  }

  /**
   * Without a token, storage changes only at the first page load the gate
   * allows: that load stores its own fresh UUID with one write, and every other
   * load leaves storage alone. If no load is allowed nothing is written.
   */
  lemma {:induction false} FirstAllowedLoadCreatesToken(storage: map<string, string>, loads: seq<LoadInput>)
    requires !HasToken(storage)
    requires forall j :: 0 <= j < |loads| ==> loads[j].uuid != ""
    ensures Run(storage, loads) ==
              match FirstAllowed(loads)
              case None => StorageHistory(storage, 0)
              case Some(i) => StorageHistory(storage[DEVICE_TOKEN_KEY := loads[i].uuid], 1)
    decreases |loads|
  {
    if loads != [] {
      if LoadOutcome(loads[0]) == Allowed {
        var created := storage[DEVICE_TOKEN_KEY := loads[0].uuid];
        ExistingTokenIsKept(created, loads[1..]);
      } else {
        FirstAllowedLoadCreatesToken(storage, loads[1..]);
      }
    }
  }

  /** Across any number of page loads the device token is written at most once. */
  lemma AtMostOneWrite(storage: map<string, string>, loads: seq<LoadInput>)
    requires forall j :: 0 <= j < |loads| ==> loads[j].uuid != ""
    ensures Run(storage, loads).writes <= 1
  {
    if HasToken(storage) {
      ExistingTokenIsKept(storage, loads);
    } else {
      FirstAllowedLoadCreatesToken(storage, loads);
    }
  }

  /** The browser window of one page load. */
  class Page {
    var localStorage: map<string, string>
    var body: Body
    var alerts: seq<Alert>
    /** The target each click listener of `#startVoteButton` assigns to `location.href`, in order. */
    var clickListeners: seq<string>
    var location: string
    /** How many times `localStorage.setItem` was called during this load. */
    var storageWrites: nat

    /** Every listener wired to the start button navigates to the voting page. */
    predicate NavigatesOnlyToVotePage()
      reads this
    {
      forall j :: 0 <= j < |clickListeners| ==> clickListeners[j] == VOTE_PAGE
    }

    /** A freshly loaded page over the origin's persisted storage. */
    constructor (storage: map<string, string>, url: string)
      ensures localStorage == storage && body == OriginalBody && alerts == []
      ensures clickListeners == [] && location == url && storageWrites == 0
      ensures NavigatesOnlyToVotePage()
    {
      localStorage := storage;
      body := OriginalBody;
      alerts := [];
      clickListeners := [];
      location := url;
      storageWrites := 0;
    }

    /** `localStorage.setItem(key, value)`. */
    method SetItem(key: string, value: string)
      modifies this`localStorage, this`storageWrites
      ensures localStorage == old(localStorage)[key := value]
      ensures storageWrites == old(storageWrites) + 1
    {
      localStorage := localStorage[key := value];
      storageWrites := storageWrites + 1;
    }

    /**
     * `createDeviceToken`, with `uuid` standing for what `crypto.randomUUID()`
     * returns. Only storage changes, exactly as `Provision` describes.
     */
    method CreateDeviceToken(uuid: string) returns (token: string)
      modifies this`localStorage, this`storageWrites
      ensures var p := Provision(old(localStorage), uuid);
              token == p.token && localStorage == p.storage
              && storageWrites == old(storageWrites) + (if p.wrote then 1 else 0)
      ensures token == localStorage[DEVICE_TOKEN_KEY]
    {
      var stored := GetItem(localStorage, DEVICE_TOKEN_KEY);
      if !Truthy(stored) {
        stored := Str(uuid);
        SetItem(DEVICE_TOKEN_KEY, uuid);
      }
      token := stored.s;
    }

    /**
     * The `DOMContentLoaded` handler, with each probe replaced by the outcome it
     * reports. Blocked: the alert is shown, the body is replaced by the warning
     * and storage and listeners are untouched. Allowed: the token is provisioned
     * and one listener navigating to the voting page is attached.
     */
    method OnDOMContentLoaded(idb: IdbOutcome, fsApis: FileSystemApis, fsReply: FsCallback, uuid: string)
      returns (outcome: Outcome)
      requires NavigatesOnlyToVotePage()
      modifies this
      ensures outcome == GateOutcome(idb, fsApis, fsReply)
      ensures var effect := LoadEffect(old(localStorage), LoadInput(idb, fsApis, fsReply, uuid));
              localStorage == effect.storage && storageWrites == old(storageWrites) + effect.writes
      ensures outcome == Blocked ==>
                && alerts == old(alerts) + [PrivateModeAlert]
                && body == PrivateModeWarning
                && clickListeners == old(clickListeners)
      ensures outcome == Allowed ==>
                && alerts == old(alerts)
                && body == old(body)
                && clickListeners == old(clickListeners) + [VOTE_PAGE]
                && HasToken(localStorage) == (HasToken(old(localStorage)) || uuid != "")
      ensures location == old(location)
      ensures NavigatesOnlyToVotePage()
    {
      var isPrivateIdb := IdbVerdict(idb);
      var isPrivateFs := FsVerdict(fsApis, fsReply);
      var isPrivate := Or(Bool(isPrivateIdb), isPrivateFs);
      if Truthy(isPrivate) {
        alerts := alerts + [PrivateModeAlert];
        body := PrivateModeWarning;
        return Blocked;
      }
      var _ := CreateDeviceToken(uuid);
      clickListeners := clickListeners + [VOTE_PAGE];
      outcome := Allowed;
    }

    /**
     * A click on `#startVoteButton`: each listener assigns its target to
     * `location.href` in turn, so the last one wins; with none, nothing happens.
     */
    method ClickStartVote()
      requires NavigatesOnlyToVotePage()
      modifies this`location
      ensures clickListeners != [] ==> location == VOTE_PAGE
      ensures clickListeners == [] ==> location == old(location)
    {
      if clickListeners != [] {
        location := clickListeners[|clickListeners| - 1];
      }
    }
  }

  /** A first visit that the gate allows, followed by a click and a later visit. */
  method FirstVisitThenReturn(uuid: string, laterUuid: string)
    requires IsUuid(uuid)
  {
    var page := new Page(map[], "index.html");
    var outcome := page.OnDOMContentLoaded(SuccessEvent, FileSystemApis(false, false), ErrorCallback, uuid);
    assert outcome == Allowed;
    assert page.localStorage == map[DEVICE_TOKEN_KEY := uuid] && page.storageWrites == 1;
    UuidIsTruthy(uuid);
    assert HasToken(page.localStorage);
    page.ClickStartVote();
    assert page.location == VOTE_PAGE;

    var again := new Page(page.localStorage, "index.html");
    outcome := again.OnDOMContentLoaded(SuccessEvent, FileSystemApis(true, false), SuccessCallback, laterUuid);
    assert outcome == Allowed;
    assert again.localStorage == page.localStorage && again.storageWrites == 0;
  }

  /** A visit the gate blocks: nothing is stored, and clicking navigates nowhere. */
  method PrivateVisit(storage: map<string, string>, uuid: string)
  {
    var page := new Page(storage, "index.html");
    var outcome := page.OnDOMContentLoaded(OpenThrows, FileSystemApis(false, true), SuccessCallback, uuid);
    assert outcome == Blocked;
    assert page.localStorage == storage && page.storageWrites == 0 && page.body == PrivateModeWarning;
    page.ClickStartVote();
    assert page.location == "index.html";
  }
}
