/**
 * The device service: turns user intents into webhook requests, commits the
 * intended colour into the shared store before the request goes out, maps a
 * delivered request to a (colour, label) pair a second time, and decides
 * whether a status probe may touch the store.
 *
 * The HTTP POST is not performed: each request is appended to the ghost log
 * `sent`, and its outcome is a parameter (`Reply`). Clock readings are
 * parameters too.
 */
module LuxaforService {
  import opened LuxaforState

  // ---------------------------------------------------------------------
  // Intents and the requests they send
  // ---------------------------------------------------------------------

  /** The colours `setSolidColor` and `blink` accept. */
  datatype BasicColor = Red | Green | Yellow | Blue | White | Cyan | Magenta {
    function Name(): string {
      match this
      case Red => "red"
      case Green => "green"
      case Yellow => "yellow"
      case Blue => "blue"
      case White => "white"
      case Cyan => "cyan"
      case Magenta => "magenta"
    }
  }

  /** The patterns `setPattern` accepts. */
  datatype PatternName = Police | TrafficLights | Random1 | Random2 | Random3 | Random4 | Random5 {
    function Name(): string {
      match this
      case Police => "police"
      case TrafficLights => "traffic lights"
      case Random1 => "random 1"
      case Random2 => "random 2"
      case Random3 => "random 3"
      case Random4 => "random 4"
      case Random5 => "random 5"
    }
  }

  /** The vendor's two API domains. */
  datatype ApiDomain = Com | CoUk {
    function Name(): string {
      match this
      case Com => "com"
      case CoUk => "co.uk"
    }
  }

  const SolidColorEndpoint := "solid_color"
  const BlinkEndpoint := "blink"
  const PatternEndpoint := "pattern"

  /** An endpoint with its actionFields. */
  datatype Request = Request(endpoint: string, fields: map<string, string>)

  /** A POST as it would leave the process: URL, userId and actionFields. */
  datatype Post = Post(url: string, userId: string, actionFields: map<string, string>)

  /** The user-visible intents; `Probe` is testConnection. */
  datatype Action =
    | Off
    | Solid(color: BasicColor)
    | Custom(hex: string)
    | Blink(color: BasicColor)
    | Pattern(pattern: PatternName)
    | Probe

  /** A colour and the action label that goes with it, as handed to setColor. */
  datatype ColorCommit = ColorCommit(color: string, action: string)

  /** The outcome of the network call: a response with its data, or a rejection. */
  datatype Reply =
    | Delivered(data: string, at: nat)
      /** `thrown` is the message when the rejection is an Error, None otherwise. */
    | Rejected(thrown: Option<string>, at: nat)

  /** What `makeRequest` returns: `{success: true, data}` or `{success: false, error}`. */
  datatype ActionResult = Succeeded(data: string) | Failed(error: string)

  /** The outcome of the awaited probe inside a status check. */
  datatype ProbeOutcome =
    | Answered(reply: Reply)
      /** The awaited probe rejects before it touches the store or sends anything. */
    | Raised(at: nat)

  // ---------------------------------------------------------------------
  // Hex normalisation: replace('#', '').padEnd(6, '0').substring(0, 6)
  // ---------------------------------------------------------------------

  /** Position of the first occurrence of `c`. */
  function IndexOf(s: string, c: char): (i: nat)
    requires c in s
    ensures i < |s| && s[i] == c
    ensures forall j :: 0 <= j < i ==> s[j] != c
  {
    if s[0] == c then 0 else 1 + IndexOf(s[1..], c)
  }

  /** `String.replace` with a string pattern: only the first occurrence goes. */
  function RemoveFirst(s: string, c: char): (r: string)
    ensures c !in s ==> r == s
    ensures c in s ==> r == s[..IndexOf(s, c)] + s[IndexOf(s, c) + 1..]
  {
    if s == [] then []
    else if s[0] == c then s[1..]
    else
      var rest := RemoveFirst(s[1..], c);
      assert c in s ==>
        var k := IndexOf(s[1..], c);
        IndexOf(s, c) == k + 1 && [s[0]] + (s[1..][..k] + s[1..][k + 1..]) == s[..k + 1] + s[k + 2..];
      [s[0]] + rest
  }

  /** `String.padEnd`: append `fill` until the length is at least `n`. */
  function PadEnd(s: string, n: nat, fill: char): (r: string)
    ensures |r| == if |s| < n then n else |s|
    ensures r[..|s|] == s
    ensures forall i :: |s| <= i < |r| ==> r[i] == fill
  {
    if |s| < n then s + seq(n - |s|, _ => fill) else s
  }

  /**
   * The colour `setCustomColor` commits and sends: always six characters,
   * the first six of the input with its first '#' taken out, padded on the
   * right with '0'; no character is changed or checked.
   */
  function NormalizeHex(hex: string): (r: string)
    ensures |r| == 6
    ensures var t := RemoveFirst(hex, '#');
      forall i :: 0 <= i < 6 ==> r[i] == if i < |t| then t[i] else '0'
  {
    var padded := PadEnd(RemoveFirst(hex, '#'), 6, '0');
    padded[..6]
  }

  /** The padding case: "#1" becomes "100000". */
  lemma NormalizeHexPads()
    ensures NormalizeHex("#1") == "100000"
  {
  }

  /** The truncating case: "abcdef12" becomes "abcdef". */
  lemma NormalizeHexTruncates()
    ensures NormalizeHex("abcdef12") == "abcdef"
  {
  }

  /** Letters keep their case: "FFF" becomes "FFF000". */
  lemma NormalizeHexKeepsCase()
    ensures NormalizeHex("FFF") == "FFF000"
  {
  }

  /** Six characters without a '#' are left as they are, so such a normalised colour is a fixed point. */
  lemma NormalizeHexFixedPoint(hex: string)
    requires |hex| == 6 && '#' !in hex
    ensures NormalizeHex(hex) == hex
  {
  }

  /** Normalising twice changes a result that still holds a '#' (the input had two). */
  lemma NormalizeHexNotIdempotent()
    ensures NormalizeHex("##1") == "#10000"
    ensures NormalizeHex("#10000") == "100000"
  {
  }

  // ---------------------------------------------------------------------
  // The request table and the two colour mappings
  // ---------------------------------------------------------------------

  /** The fields `updateCurrentColor` reads are present (TypeScript's Record<string, string> typing). */
  predicate CarriesFields(req: Request) {
    && (req.endpoint == SolidColorEndpoint ==>
          "color" in req.fields && (req.fields["color"] == "custom" ==> "custom_color" in req.fields))
    && (req.endpoint == BlinkEndpoint ==> "color" in req.fields)
    && (req.endpoint == PatternEndpoint ==> "pattern" in req.fields)
  }

  /** The endpoint and actionFields each intent sends. */
  function RequestOf(a: Action): (r: Request)
    ensures CarriesFields(r)
    ensures r.endpoint in {SolidColorEndpoint, BlinkEndpoint, PatternEndpoint}
  {
    match a
    case Off => Request(SolidColorEndpoint, map["color" := "custom", "custom_color" := "000000"])
    case Solid(c) => Request(SolidColorEndpoint, map["color" := c.Name()])
    case Custom(hex) => Request(SolidColorEndpoint, map["color" := "custom", "custom_color" := NormalizeHex(hex)])
    case Blink(c) => Request(BlinkEndpoint, map["color" := c.Name()])
    case Pattern(p) => Request(PatternEndpoint, map["pattern" := p.Name()])
    case Probe => Request(SolidColorEndpoint, map["color" := "red"])
  }

  /** The optimistic commit an intent makes before its request; the probe makes none. */
  function Commit(a: Action): Option<ColorCommit> {
    match a
    case Off => Some(ColorCommit("000000", "Turn Off"))
    case Solid(c) => Some(ColorCommit(c.Name(), "Set " + c.Name()))
    case Custom(hex) => Some(ColorCommit(NormalizeHex(hex), "Set custom color " + NormalizeHex(hex)))
    case Blink(c) => Some(ColorCommit(c.Name(), "Blink " + c.Name()))
    case Pattern(p) => Some(ColorCommit("pattern", "Pattern " + p.Name()))
    case Probe => None
  }

  /** The decision inside `updateCurrentColor`: which colour and label a delivered request records. */
  function ColorUpdate(req: Request): Option<ColorCommit>
    requires CarriesFields(req)
  {
    if req.endpoint == SolidColorEndpoint then
      if req.fields["color"] == "custom" then
        Some(ColorCommit(req.fields["custom_color"], "Set custom color " + req.fields["custom_color"]))
      else
        Some(ColorCommit(req.fields["color"], "Set " + req.fields["color"]))
    else if req.endpoint == BlinkEndpoint then
      Some(ColorCommit(req.fields["color"], "Blink " + req.fields["color"]))
    else if req.endpoint == PatternEndpoint then
      Some(ColorCommit("pattern", "Pattern " + req.fields["pattern"]))
    else
      None
  }

  /**
   * The second mapping agrees with the optimistic commit on the colour of
   * every colour intent, and on the label of every one but turnOff; the
   * probe's request maps to red.
   */
  lemma SecondMappingAgrees(a: Action)
    ensures a.Probe? ==> ColorUpdate(RequestOf(a)) == Some(ColorCommit("red", "Set red"))
    ensures !a.Probe? ==> ColorUpdate(RequestOf(a)).Some? && Commit(a).Some?
    ensures !a.Probe? ==> ColorUpdate(RequestOf(a)).value.color == Commit(a).value.color
    ensures !a.Probe? ==> (ColorUpdate(RequestOf(a)).value.action == Commit(a).value.action <==> !a.Off?)
  {
    match a
    case Off =>
      var lbl := ColorUpdate(RequestOf(a)).value.action;
      assert lbl[0..5] == "Set c";
    case Solid(c) =>
      assert c.Name() != "custom" by { assert c.Name()[0] != 'c' || |c.Name()| != 6; }
    case Custom(_) =>
    case Blink(_) =>
    case Pattern(_) =>
    case Probe =>
      assert "Set " + "red" == "Set red";
  }

  // ---------------------------------------------------------------------
  // What each intent does to the store
  // ---------------------------------------------------------------------

  /** `updateCurrentColor` applied at time `at`. */
  function ColorUpdated(s: DeviceStatus, req: Request, at: nat): DeviceStatus
    requires CarriesFields(req)
  {
    match ColorUpdate(req)
    case Some(c) => WithColor(s, c.color, c.action, at)
    case None => s
  }

  /** The store after `makeRequest`: a delivered request updates the colour, a rejected one changes nothing. */
  function AfterRequest(s: DeviceStatus, req: Request, reply: Reply): DeviceStatus
    requires CarriesFields(req)
  {
    match reply
    case Delivered(_, at) => ColorUpdated(s, req, at)
    case Rejected(_, _) => s
  }

  /** What `makeRequest` returns for a reply. */
  function ResultOf(reply: Reply): (r: ActionResult)
    ensures r.Succeeded? <==> reply.Delivered?
    ensures reply.Delivered? ==> r.data == reply.data
    ensures reply.Rejected? && reply.thrown.Some? ==> r.error == reply.thrown.value
    ensures reply.Rejected? && reply.thrown.None? ==> r.error == "Unknown error"
  {
    match reply
    case Delivered(data, _) => Succeeded(data)
    case Rejected(thrown, _) => Failed(if thrown.Some? then thrown.value else "Unknown error")
  }

  /** The store after an intent's own step, before its request goes out. */
  function BeforeRequest(s: DeviceStatus, a: Action, now: nat): DeviceStatus {
    match Commit(a)
    case Some(c) => WithColor(s, c.color, c.action, now)
    case None => Merge(s, StatusPatch(None, None, None, Some("Connection Test")))
  }

  /** The store after a whole intent, committed at `now`, with the given reply. */
  function AfterAction(s: DeviceStatus, a: Action, now: nat, reply: Reply): DeviceStatus {
    AfterRequest(BeforeRequest(s, a, now), RequestOf(a), reply)
  }

  // ---------------------------------------------------------------------
  // What listeners see: the records an intent publishes, in order
  // ---------------------------------------------------------------------

  /** The record after the last of a series of mutations starting from `s`. */
  function Final(s: DeviceStatus, trace: seq<DeviceStatus>): DeviceStatus {
    if trace == [] then s else trace[|trace| - 1]
  }

  /** The records `updateCurrentColor` publishes: one when the request maps to a colour. */
  function UpdateTrace(s: DeviceStatus, req: Request, at: nat): seq<DeviceStatus>
    requires CarriesFields(req)
  {
    match ColorUpdate(req)
    case Some(c) => [WithColor(s, c.color, c.action, at)]
    case None => []
  }

  /** The records `makeRequest` publishes: those of `updateCurrentColor` when delivered, none when rejected. */
  function RequestTrace(s: DeviceStatus, req: Request, reply: Reply): seq<DeviceStatus>
    requires CarriesFields(req)
  {
    match reply
    case Delivered(_, at) => UpdateTrace(s, req, at)
    case Rejected(_, _) => []
  }

  /** The records an intent publishes: its own step first, then those of its request. */
  function ActionTrace(s: DeviceStatus, a: Action, now: nat, reply: Reply): seq<DeviceStatus> {
    var b := BeforeRequest(s, a, now);
    [b] + RequestTrace(b, RequestOf(a), reply)
  }

  /** The records `getDeviceInfo` publishes. */
  function DeviceInfoTrace(s: DeviceStatus, refreshing: bool, probe: ProbeOutcome): seq<DeviceStatus> {
    if ProbeSkipped(s, refreshing) then []
    else
      match probe
      case Raised(at) => [WithOnline(s, false, at)]
      case Answered(reply) =>
        var probed := ActionTrace(s, Probe, reply.at, reply);
        var t := AfterAction(s, Probe, reply.at, reply);
        if reply.Delivered? then
          // the guard reads the entry snapshot; the flag has just been reset
          if s.lastAction == "" then
            var red := WithColor(t, "red", "Connection Test", reply.at);
            probed + [red] + [WithOnline(red, true, reply.at)]
          else
            probed + [WithOnline(t, true, reply.at)]
        else
          probed + [WithOnline(t, false, reply.at)]
  }

  /** The records `forceRefreshStatus` publishes. */
  function RefreshTrace(s: DeviceStatus, probe: ProbeOutcome): seq<DeviceStatus> {
    match probe
    case Raised(at) => [WithOnline(s, false, at)]
    case Answered(reply) =>
      var probed := ActionTrace(s, Probe, reply.at, reply);
      var t := AfterAction(s, Probe, reply.at, reply);
      if reply.Delivered? then
        // the guard reads the record after the probe
        if t.lastAction == "" then
          var red := WithColor(t, "red", "Connection Test", reply.at);
          probed + [red] + [WithOnline(red, true, reply.at)]
        else
          probed + [WithOnline(t, true, reply.at)]
      else
        probed + [WithOnline(t, false, reply.at)]
  }

  /** Each series of published records ends in the record the operation leaves. */
  lemma TracesEndInStatus(s: DeviceStatus, a: Action, now: nat, reply: Reply, refreshing: bool, probe: ProbeOutcome)
    ensures Final(s, ActionTrace(s, a, now, reply)) == AfterAction(s, a, now, reply)
    ensures Final(s, DeviceInfoTrace(s, refreshing, probe)) == DeviceInfoStatus(s, refreshing, probe)
    ensures Final(s, RefreshTrace(s, probe)) == RefreshStatus(s, probe)
  {
  }

  /**
   * The optimistic commit reaches the listeners before the request goes out:
   * a colour intent publishes its commit first, and a second record only
   * when the request is delivered.
   */
  lemma CommitPublishedFirst(s: DeviceStatus, a: Action, now: nat, reply: Reply)
    requires !a.Probe?
    ensures Commit(a).Some?
    ensures |ActionTrace(s, a, now, reply)| == if reply.Delivered? then 2 else 1
    ensures ActionTrace(s, a, now, reply)[0] == WithColor(s, Commit(a).value.color, Commit(a).value.action, now)
  {
    SecondMappingAgrees(a);
  }

  /**
   * A colour intent leaves its colour in the store whatever the reply; a
   * rejected request leaves the optimistic commit exactly as it was made
   * (no rollback), a delivered one records the second mapping's label.
   */
  lemma ColorIntentOutcome(s: DeviceStatus, a: Action, now: nat, reply: Reply)
    requires !a.Probe?
    ensures Commit(a).Some?
    ensures AfterAction(s, a, now, reply).currentColor == Commit(a).value.color
    ensures AfterAction(s, a, now, reply).isOnline
    ensures reply.Rejected? ==> AfterAction(s, a, now, reply) == WithColor(s, Commit(a).value.color, Commit(a).value.action, now)
    ensures reply.Delivered? ==>
      AfterAction(s, a, now, reply).lastAction == ColorUpdate(RequestOf(a)).value.action &&
      AfterAction(s, a, now, reply).lastSeen == Some(reply.at)
  {
    SecondMappingAgrees(a);
  }

  /** A successful turnOff ends labelled "Set custom color 000000", a failed one "Turn Off". */
  lemma TurnOffLabel(s: DeviceStatus, now: nat, reply: Reply)
    ensures AfterAction(s, Off, now, reply).currentColor == "000000"
    ensures reply.Delivered? ==> AfterAction(s, Off, now, reply).lastAction == "Set custom color 000000"
    ensures reply.Rejected? ==> AfterAction(s, Off, now, reply).lastAction == "Turn Off"
    ensures reply.Delivered? ==>
      |ActionTrace(s, Off, now, reply)| == 2 &&
      ActionTrace(s, Off, now, reply)[0].lastAction == "Turn Off" &&
      ActionTrace(s, Off, now, reply)[1].lastAction == "Set custom color 000000"
  {
  }

  /**
   * testConnection first records only its label; a rejected probe leaves
   * colour, reachability and lastSeen as they were, a delivered one sets the
   * colour to red through the second mapping.
   */
  lemma TestConnectionOutcome(s: DeviceStatus, now: nat, reply: Reply)
    ensures BeforeRequest(s, Probe, now) == s.(lastAction := "Connection Test")
    ensures reply.Rejected? ==> AfterAction(s, Probe, now, reply) == s.(lastAction := "Connection Test")
    ensures reply.Delivered? ==> AfterAction(s, Probe, now, reply) == WithColor(s, "red", "Set red", reply.at)
    ensures ActionTrace(s, Probe, now, reply)[0] == s.(lastAction := "Connection Test")
  {
    SecondMappingAgrees(Probe);
  }

  /** After any intent the store has a non-empty last action. */
  lemma ActionRecordsLabel(s: DeviceStatus, a: Action, now: nat, reply: Reply)
    ensures AfterAction(s, a, now, reply).lastAction != ""
  {
    SecondMappingAgrees(a);
    var r := AfterAction(s, a, now, reply);
    if reply.Delivered? {
      assert r.lastAction == ColorUpdate(RequestOf(a)).value.action;
      assert |r.lastAction| > 0;
    } else if !a.Probe? {
      assert r.lastAction == Commit(a).value.action;
    }
  }

  /** One intent with its commit time and reply. */
  datatype Step = Step(action: Action, now: nat, reply: Reply)

  /** The store after a sequence of intents, one after the other. */
  function Run(s: DeviceStatus, steps: seq<Step>): DeviceStatus
    decreases |steps|
  {
    if steps == [] then s
    else Run(AfterAction(s, steps[0].action, steps[0].now, steps[0].reply), steps[1..])
  }

  /**
   * After a sequence of intents that ends in a colour intent the colour is
   * the one that intent committed, whatever came before and whatever each
   * request's outcome.
   */
  lemma LastColorIntentWins(s: DeviceStatus, steps: seq<Step>)
    requires steps != [] && !steps[|steps| - 1].action.Probe?
    ensures Commit(steps[|steps| - 1].action).Some?
    ensures Run(s, steps).currentColor == Commit(steps[|steps| - 1].action).value.color
  {
    ColorSurvivesRejectedProbes(s, steps, |steps| - 1);
  }

  /** Running one intent more is applying it to where the run ended. */
  lemma {:induction false} RunSnoc(s: DeviceStatus, steps: seq<Step>, last: Step)
    ensures Run(s, steps + [last]) == AfterAction(Run(s, steps), last.action, last.now, last.reply)
    decreases |steps|
  {
    if steps == [] {
      assert [] + [last] == [last];
    } else {
      assert (steps + [last])[1..] == steps[1..] + [last];
      RunSnoc(AfterAction(s, steps[0].action, steps[0].now, steps[0].reply), steps[1..], last);
    }
  }

  /**
   * Probes that are rejected do not disturb the colour: the colour committed
   * by a colour intent survives every rejected testConnection after it.
   */
  lemma {:induction false} ColorSurvivesRejectedProbes(s: DeviceStatus, steps: seq<Step>, k: nat)
    requires k < |steps| && !steps[k].action.Probe?
    requires forall i :: k < i < |steps| ==> steps[i].action.Probe? && steps[i].reply.Rejected?
    ensures Commit(steps[k].action).Some?
    ensures Run(s, steps).currentColor == Commit(steps[k].action).value.color
    decreases |steps|
  {
    var prefix, last := steps[..|steps| - 1], steps[|steps| - 1];
    assert steps == prefix + [last];
    RunSnoc(s, prefix, last);
    if k == |steps| - 1 {
      ColorIntentOutcome(Run(s, prefix), last.action, last.now, last.reply);
    } else {
      assert forall i :: k < i < |prefix| ==> prefix[i] == steps[i];
      ColorSurvivesRejectedProbes(s, prefix, k);
      TestConnectionOutcome(Run(s, prefix), last.now, last.reply);
    }
  }

  /**
   * A delivered probe, by contrast, leaves red whatever came before: a colour
   * intent is only the last word when no delivered testConnection follows it.
   */
  lemma DeliveredProbeTurnsRed(s: DeviceStatus, steps: seq<Step>)
    requires steps != [] && steps[|steps| - 1].action.Probe? && steps[|steps| - 1].reply.Delivered?
    ensures Run(s, steps).currentColor == "red"
  {
    var prefix, last := steps[..|steps| - 1], steps[|steps| - 1];
    assert steps == prefix + [last];
    RunSnoc(s, prefix, last);
    TestConnectionOutcome(Run(s, prefix), last.now, last.reply);
  }

  // ---------------------------------------------------------------------
  // Reconciliation: getDeviceInfo and forceRefreshStatus
  // ---------------------------------------------------------------------

  /** getDeviceInfo answers from the store, without a probe, when an action is recorded and no refresh is running. */
  predicate ProbeSkipped(s: DeviceStatus, refreshing: bool) {
    s.lastAction != "" && !refreshing
  }

  /** The store after `getDeviceInfo` entered with record `s` and flag `refreshing`. */
  function DeviceInfoStatus(s: DeviceStatus, refreshing: bool, probe: ProbeOutcome): DeviceStatus {
    Final(s, DeviceInfoTrace(s, refreshing, probe))
  }

  /** The store after `forceRefreshStatus` entered with record `s`. */
  function RefreshStatus(s: DeviceStatus, probe: ProbeOutcome): DeviceStatus {
    Final(s, RefreshTrace(s, probe))
  }

  /**
   * getDeviceInfo: with no probe the store is untouched; after a probe the
   * device is online exactly when the probe was delivered, a delivered probe
   * on an empty history leaves red / "Connection Test", and a failed probe
   * leaves the colour as it was.
   */
  lemma DeviceInfoOutcome(s: DeviceStatus, refreshing: bool, probe: ProbeOutcome)
    ensures ProbeSkipped(s, refreshing) ==> DeviceInfoStatus(s, refreshing, probe) == s
    ensures ProbeSkipped(s, refreshing) <==> DeviceInfoTrace(s, refreshing, probe) == []
    ensures !ProbeSkipped(s, refreshing) ==>
      DeviceInfoStatus(s, refreshing, probe).isOnline == (probe.Answered? && probe.reply.Delivered?)
    ensures !ProbeSkipped(s, refreshing) && probe.Answered? && probe.reply.Delivered? && s.lastAction == "" ==>
      DeviceInfoStatus(s, refreshing, probe).currentColor == "red" &&
      DeviceInfoStatus(s, refreshing, probe).lastAction == "Connection Test"
    ensures !ProbeSkipped(s, refreshing) && !(probe.Answered? && probe.reply.Delivered?) ==>
      DeviceInfoStatus(s, refreshing, probe).currentColor == s.currentColor
  {
    if probe.Answered? {
      TestConnectionOutcome(s, probe.reply.at, probe.reply);
    }
  }

  /**
   * Once getDeviceInfo has run with the flag down, the next call with the
   * flag down answers from the store: the periodic check probes at most once
   * in a sequential run.
   */
  lemma DeviceInfoProbesOnce(s: DeviceStatus, probe: ProbeOutcome)
    requires probe.Answered?
    ensures ProbeSkipped(DeviceInfoStatus(s, false, probe), false)
  {
    if !ProbeSkipped(s, false) {
      ActionRecordsLabel(s, Probe, probe.reply.at, probe.reply);
    }
  }

  /**
   * forceRefreshStatus: its colour guard never fires, because the probe has
   * already recorded a label; the device ends online exactly when the probe
   * was delivered, and a failed probe leaves the colour as it was.
   */
  lemma RefreshOutcome(s: DeviceStatus, probe: ProbeOutcome)
    ensures probe.Answered? ==> AfterAction(s, Probe, probe.reply.at, probe.reply).lastAction != ""
    ensures probe.Answered? ==>
      RefreshStatus(s, probe) == WithOnline(AfterAction(s, Probe, probe.reply.at, probe.reply), probe.reply.Delivered?, probe.reply.at)
    ensures RefreshStatus(s, probe).isOnline == (probe.Answered? && probe.reply.Delivered?)
    ensures probe.Answered? && probe.reply.Delivered? ==>
      RefreshStatus(s, probe).currentColor == "red" && RefreshStatus(s, probe).lastAction == "Set red"
    ensures !(probe.Answered? && probe.reply.Delivered?) ==> RefreshStatus(s, probe).currentColor == s.currentColor
  {
    if probe.Answered? {
      ActionRecordsLabel(s, Probe, probe.reply.at, probe.reply);
      TestConnectionOutcome(s, probe.reply.at, probe.reply);
    }
  }

  // ---------------------------------------------------------------------
  // The service
  // ---------------------------------------------------------------------

  class Service {
    const store: StateStore
    const userId: string
    const baseUrl: string
    var isRefreshing: bool
    /** Every POST issued, in order. */
    ghost var sent: seq<Post>

    function PostOf(req: Request): Post {
      Post(baseUrl + "/" + req.endpoint, userId, req.fields)
    }

    constructor (store: StateStore, userId: string, apiEndpoint: ApiDomain)
      ensures this.store == store && this.userId == userId
      ensures baseUrl == "https://api.luxafor." + apiEndpoint.Name() + "/webhook/v1/actions"
      ensures !isRefreshing && sent == []
    {
      this.store := store;
      this.userId := userId;
      baseUrl := "https://api.luxafor." + apiEndpoint.Name() + "/webhook/v1/actions";
      isRefreshing := false;
      sent := [];
    }

    /** Sends one POST; never fails: a rejection becomes `Failed` and leaves the store alone. */
    method MakeRequest(endpoint: string, actionFields: map<string, string>, reply: Reply) returns (r: ActionResult)
      requires store.Valid() && CarriesFields(Request(endpoint, actionFields))
      modifies this`sent, store
      ensures store.Valid() && store.listeners == old(store.listeners)
      ensures sent == old(sent) + [PostOf(Request(endpoint, actionFields))]
      ensures store.status == AfterRequest(old(store.status), Request(endpoint, actionFields), reply)
      ensures store.delivered == old(store.delivered) +
        Announce(store.listeners, RequestTrace(old(store.status), Request(endpoint, actionFields), reply))
      ensures store.reported == old(store.reported) + Failures(Announce(store.listeners, RequestTrace(old(store.status), Request(endpoint, actionFields), reply)), store.throws)
      ensures r == ResultOf(reply)
    {
      sent := sent + [PostOf(Request(endpoint, actionFields))];
      match reply
      case Delivered(data, at) =>
        UpdateCurrentColor(endpoint, actionFields, at);
        r := Succeeded(data);
      case Rejected(thrown, _) =>
        r := Failed(if thrown.Some? then thrown.value else "Unknown error");
    }

    method UpdateCurrentColor(endpoint: string, actionFields: map<string, string>, now: nat)
      requires store.Valid() && CarriesFields(Request(endpoint, actionFields))
      modifies store
      ensures store.Valid() && store.listeners == old(store.listeners)
      ensures store.status == ColorUpdated(old(store.status), Request(endpoint, actionFields), now)
      ensures store.delivered == old(store.delivered) +
        Announce(store.listeners, UpdateTrace(old(store.status), Request(endpoint, actionFields), now))
      ensures store.reported == old(store.reported) + Failures(Announce(store.listeners, UpdateTrace(old(store.status), Request(endpoint, actionFields), now)), store.throws)
    {
      var update := ColorUpdate(Request(endpoint, actionFields));
      if update.Some? {
        store.SetColor(update.value.color, update.value.action, now);
        AnnounceGrows(old(store.delivered), store.listeners, [], store.status);
      }
      FailuresConcat(old(store.delivered), Announce(store.listeners, UpdateTrace(old(store.status), Request(endpoint, actionFields), now)), store.throws);
    }

    /**
     * The records an intent publishes once its own step has run: the step's
     * record `b`, then those of its request.
     */
    lemma IntentLog(d0: seq<Notification>, b: DeviceStatus, a: Action, reply: Reply)
      ensures d0 + Broadcast(store.listeners, b) + Announce(store.listeners, RequestTrace(b, RequestOf(a), reply)) ==
        d0 + Announce(store.listeners, [b] + RequestTrace(b, RequestOf(a), reply))
    {
    }

    method TurnOff(now: nat, reply: Reply) returns (r: ActionResult)
      requires store.Valid()
      modifies this`sent, store
      ensures store.Valid() && store.listeners == old(store.listeners)
      ensures sent == old(sent) + [PostOf(RequestOf(Off))]
      ensures store.status == AfterAction(old(store.status), Off, now, reply)
      ensures store.delivered == old(store.delivered) + Announce(store.listeners, ActionTrace(old(store.status), Off, now, reply))
      ensures store.reported == old(store.reported) + Failures(Announce(store.listeners, ActionTrace(old(store.status), Off, now, reply)), store.throws)
      ensures r == ResultOf(reply)
    {
      store.SetColor("000000", "Turn Off", now);
      ghost var b := store.status;
      r := MakeRequest(SolidColorEndpoint, map["color" := "custom", "custom_color" := "000000"], reply);
      IntentLog(old(store.delivered), b, Off, reply);
      FailuresConcat(old(store.delivered), Announce(store.listeners, ActionTrace(old(store.status), Off, now, reply)), store.throws);
    }

    method SetSolidColor(color: BasicColor, now: nat, reply: Reply) returns (r: ActionResult)
      requires store.Valid()
      modifies this`sent, store
      ensures store.Valid() && store.listeners == old(store.listeners)
      ensures sent == old(sent) + [PostOf(RequestOf(Solid(color)))]
      ensures store.status == AfterAction(old(store.status), Solid(color), now, reply)
      ensures store.delivered == old(store.delivered) + Announce(store.listeners, ActionTrace(old(store.status), Solid(color), now, reply))
      ensures store.reported == old(store.reported) + Failures(Announce(store.listeners, ActionTrace(old(store.status), Solid(color), now, reply)), store.throws)
      ensures r == ResultOf(reply)
    {
      store.SetColor(color.Name(), "Set " + color.Name(), now);
      ghost var b := store.status;
      r := MakeRequest(SolidColorEndpoint, map["color" := color.Name()], reply);
      IntentLog(old(store.delivered), b, Solid(color), reply);
      FailuresConcat(old(store.delivered), Announce(store.listeners, ActionTrace(old(store.status), Solid(color), now, reply)), store.throws);
    }

    method SetCustomColor(hexColor: string, now: nat, reply: Reply) returns (r: ActionResult)
      requires store.Valid()
      modifies this`sent, store
      ensures store.Valid() && store.listeners == old(store.listeners)
      ensures sent == old(sent) + [PostOf(RequestOf(Custom(hexColor)))]
      ensures store.status == AfterAction(old(store.status), Custom(hexColor), now, reply)
      ensures store.delivered == old(store.delivered) + Announce(store.listeners, ActionTrace(old(store.status), Custom(hexColor), now, reply))
      ensures store.reported == old(store.reported) + Failures(Announce(store.listeners, ActionTrace(old(store.status), Custom(hexColor), now, reply)), store.throws)
      ensures r == ResultOf(reply)
    {
      var cleanHex := NormalizeHex(hexColor);
      store.SetColor(cleanHex, "Set custom color " + cleanHex, now);
      ghost var b := store.status;
      r := MakeRequest(SolidColorEndpoint, map["color" := "custom", "custom_color" := cleanHex], reply);
      IntentLog(old(store.delivered), b, Custom(hexColor), reply);
      FailuresConcat(old(store.delivered), Announce(store.listeners, ActionTrace(old(store.status), Custom(hexColor), now, reply)), store.throws);
    }

    method Blink(color: BasicColor, now: nat, reply: Reply) returns (r: ActionResult)
      requires store.Valid()
      modifies this`sent, store
      ensures store.Valid() && store.listeners == old(store.listeners)
      ensures sent == old(sent) + [PostOf(RequestOf(Action.Blink(color)))]
      ensures store.status == AfterAction(old(store.status), Action.Blink(color), now, reply)
      ensures store.delivered == old(store.delivered) + Announce(store.listeners, ActionTrace(old(store.status), Action.Blink(color), now, reply))
      ensures store.reported == old(store.reported) + Failures(Announce(store.listeners, ActionTrace(old(store.status), Action.Blink(color), now, reply)), store.throws)
      ensures r == ResultOf(reply)
    {
      store.SetColor(color.Name(), "Blink " + color.Name(), now);
      ghost var b := store.status;
      r := MakeRequest(BlinkEndpoint, map["color" := color.Name()], reply);
      IntentLog(old(store.delivered), b, Action.Blink(color), reply);
      FailuresConcat(old(store.delivered), Announce(store.listeners, ActionTrace(old(store.status), Action.Blink(color), now, reply)), store.throws);
    }

    method SetPattern(pattern: PatternName, now: nat, reply: Reply) returns (r: ActionResult)
      requires store.Valid()
      modifies this`sent, store
      ensures store.Valid() && store.listeners == old(store.listeners)
      ensures sent == old(sent) + [PostOf(RequestOf(Pattern(pattern)))]
      ensures store.status == AfterAction(old(store.status), Pattern(pattern), now, reply)
      ensures store.delivered == old(store.delivered) + Announce(store.listeners, ActionTrace(old(store.status), Pattern(pattern), now, reply))
      ensures store.reported == old(store.reported) + Failures(Announce(store.listeners, ActionTrace(old(store.status), Pattern(pattern), now, reply)), store.throws)
      ensures r == ResultOf(reply)
    {
      store.SetColor("pattern", "Pattern " + pattern.Name(), now);
      ghost var b := store.status;
      r := MakeRequest(PatternEndpoint, map["pattern" := pattern.Name()], reply);
      IntentLog(old(store.delivered), b, Pattern(pattern), reply);
      FailuresConcat(old(store.delivered), Announce(store.listeners, ActionTrace(old(store.status), Pattern(pattern), now, reply)), store.throws);
    }

    /** The probe: records its label, then sends red; the reply's time stamps any colour update. */
    method TestConnection(reply: Reply) returns (r: ActionResult)
      requires store.Valid()
      modifies this`sent, store
      ensures store.Valid() && store.listeners == old(store.listeners)
      ensures sent == old(sent) + [PostOf(RequestOf(Probe))]
      ensures store.status == AfterAction(old(store.status), Probe, reply.at, reply)
      ensures store.delivered == old(store.delivered) + Announce(store.listeners, ActionTrace(old(store.status), Probe, reply.at, reply))
      ensures store.reported == old(store.reported) + Failures(Announce(store.listeners, ActionTrace(old(store.status), Probe, reply.at, reply)), store.throws)
      ensures r == ResultOf(reply)
    {
      store.UpdateStatus(StatusPatch(None, None, None, Some("Connection Test")));
      ghost var b := store.status;
      r := MakeRequest(SolidColorEndpoint, map["color" := "red"], reply);
      IntentLog(old(store.delivered), b, Probe, reply);
      FailuresConcat(old(store.delivered), Announce(store.listeners, ActionTrace(old(store.status), Probe, reply.at, reply)), store.throws);
    }

    method GetDeviceInfo(probe: ProbeOutcome) returns (snapshot: DeviceStatus)
      requires store.Valid()
      modifies this, store
      ensures store.Valid() && store.listeners == old(store.listeners)
      ensures !isRefreshing
      ensures store.status == DeviceInfoStatus(old(store.status), old(isRefreshing), probe)
      ensures store.delivered == old(store.delivered) +
        Announce(store.listeners, DeviceInfoTrace(old(store.status), old(isRefreshing), probe))
      ensures store.reported == old(store.reported) + Failures(Announce(store.listeners, DeviceInfoTrace(old(store.status), old(isRefreshing), probe)), store.throws)
      ensures sent == old(sent) +
        if ProbeSkipped(old(store.status), old(isRefreshing)) || probe.Raised? then [] else [PostOf(RequestOf(Probe))]
      ensures snapshot == store.status
    {
      var currentStatus := store.GetStatus();
      if currentStatus.lastAction != "" && !isRefreshing {
        return currentStatus;
      }
      isRefreshing := true;
      match probe {
        case Raised(at) =>
          isRefreshing := false;
          store.SetOnline(false, at);
          AnnounceGrows(old(store.delivered), store.listeners, [], store.status);
          snapshot := store.GetStatus();
        case Answered(reply) =>
          var result := TestConnection(reply);
          isRefreshing := false;
          ghost var trace := ActionTrace(currentStatus, Probe, reply.at, reply);
          if result.Succeeded? {
            if currentStatus.lastAction == "" || isRefreshing {
              store.SetColor("red", "Connection Test", reply.at);
              AnnounceGrows(old(store.delivered), store.listeners, trace, store.status);
              trace := trace + [store.status];
            }
            store.SetOnline(true, reply.at);
          } else {
            store.SetOnline(false, reply.at);
          }
          AnnounceGrows(old(store.delivered), store.listeners, trace, store.status);
          trace := trace + [store.status];
          assert trace == DeviceInfoTrace(currentStatus, true, probe);
          snapshot := store.GetStatus();
      }
      FailuresConcat(old(store.delivered), Announce(store.listeners, DeviceInfoTrace(old(store.status), old(isRefreshing), probe)), store.throws);
    }

    method ForceRefreshStatus(probe: ProbeOutcome) returns (snapshot: DeviceStatus)
      requires store.Valid()
      modifies this, store
      ensures store.Valid() && store.listeners == old(store.listeners)
      ensures !isRefreshing
      ensures store.status == RefreshStatus(old(store.status), probe)
      ensures store.delivered == old(store.delivered) + Announce(store.listeners, RefreshTrace(old(store.status), probe))
      ensures store.reported == old(store.reported) + Failures(Announce(store.listeners, RefreshTrace(old(store.status), probe)), store.throws)
      ensures sent == old(sent) + if probe.Raised? then [] else [PostOf(RequestOf(Probe))]
      ensures snapshot == store.status
    {
      isRefreshing := true;
      match probe {
        case Raised(at) =>
          store.SetOnline(false, at);
          AnnounceGrows(old(store.delivered), store.listeners, [], store.status);
          snapshot := store.GetStatus();
        case Answered(reply) =>
          ghost var s0 := store.status;
          ghost var trace := ActionTrace(s0, Probe, reply.at, reply);
          var result := TestConnection(reply);
          if result.Succeeded? {
            var currentStatus := store.GetStatus();
            if currentStatus.lastAction == "" {
              store.SetColor("red", "Connection Test", reply.at);
              AnnounceGrows(old(store.delivered), store.listeners, trace, store.status);
              trace := trace + [store.status];
            }
            store.SetOnline(true, reply.at);
          } else {
            store.SetOnline(false, reply.at);
          }
          AnnounceGrows(old(store.delivered), store.listeners, trace, store.status);
          trace := trace + [store.status];
          assert trace == RefreshTrace(s0, probe);
          snapshot := store.GetStatus();
      }
      // finally
      isRefreshing := false;
      FailuresConcat(old(store.delivered), Announce(store.listeners, RefreshTrace(old(store.status), probe)), store.throws);
    }
  }
}
