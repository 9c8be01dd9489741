/**
 * The agent status page (`AgentShow`): the ordered list of status items,
 * the visibility of the "Stop Agent" row, the text of the meta-data panel,
 * the `stopping` flag driven by the stop mutation, and the refresh timer
 * that lives between mount and unmount.
 */
module AgentShow {
  import opened JsRuntime
  import opened FlashesStore

  datatype Job = Job(id: string)

  datatype User = User(name: string)

  /**
   * The agent fields the page reads. Optional fields are `None` when the
   * server sends null; `connectionState` is the raw string the server
   * sends (connected, disconnected, lost, stopped, stopping); the
   * `agentStop` permission is reduced to its `allowed` flag.
   */
  datatype Agent = Agent(
    id: string,
    name: string,
    connectionState: string,
    version: Option<string>,
    hostname: Option<string>,
    pid: Option<int>,
    ipAddress: Option<string>,
    userAgent: Option<string>,
    operatingSystem: Option<string>,
    priority: Option<int>,
    job: Option<Job>,
    connectedAt: Option<string>,
    pingedAt: Option<string>,
    disconnectedAt: Option<string>,
    lostAt: Option<string>,
    stoppedAt: Option<string>,
    stoppedBy: Option<User>,
    agentStopAllowed: bool)

  /** One labelled status item, with the agent data it shows. */
  datatype Extra =
    | VersionItem(version: string)
    | HostnameItem(hostname: string)
    | PidItem(pid: int)
    | IpAddressItem(ipAddress: string)
    | UserAgentItem(userAgent: string)
    | OperatingSystemItem(operatingSystem: string)
    | PriorityItem(priority: int)
    | RunningItem(job: Job)
      /** `lastCheckIn` is the "(last check-in was …)" note. */
    | ConnectedItem(connectedAt: string, lastCheckIn: Option<string>)
    | LostItem(lostAt: Option<string>)
    | StoppedItem(stoppedAt: Option<string>, stoppedByName: string)
    | DisconnectedItem(disconnectedAt: Option<string>)

  /** The item titles, in the order the items can appear. */
  const Labels: seq<string> := [
    "Version", "Hostname", "PID", "IP Address", "User Agent", "OS",
    "Priority", "Running", "Connected", "Lost", "Stopped", "Disconnected"
  ]

  /** The position of an item's title in `Labels`. */
  function Rank(e: Extra): (k: nat)
    ensures k < |Labels|
  {
    match e
    case VersionItem(_) => 0
    case HostnameItem(_) => 1
    case PidItem(_) => 2
    case IpAddressItem(_) => 3
    case UserAgentItem(_) => 4
    case OperatingSystemItem(_) => 5
    case PriorityItem(_) => 6
    case RunningItem(_) => 7
    case ConnectedItem(_, _) => 8
    case LostItem(_) => 9
    case StoppedItem(_, _) => 10
    case DisconnectedItem(_) => 11
  }

  /** The title the item is rendered with. */
  function Label(e: Extra): string {
    Labels[Rank(e)]
  }

  /** Two items with the same title have the same rank. */
  lemma LabelDeterminesRank(e: Extra, f: Extra)
    requires Label(e) == Label(f)
    ensures Rank(e) == Rank(f)
  {
    assert forall i, j :: 0 <= i < j < |Labels| ==> Labels[i] != Labels[j];
  }

  /** Whether a list of items shows an item with this title. */
  predicate Shows(xs: seq<Extra>, title: string) {
    exists e :: e in xs && Label(e) == title
  }

  /** Ranks strictly increase along the list: fixed order, no title twice. */
  predicate StrictlyRanked(xs: seq<Extra>) {
    forall i, j :: 0 <= i < j < |xs| ==> Rank(xs[i]) < Rank(xs[j])
  }

  // ---------------------------------------------------------------------
  // renderExtras

  /** Whether the field behind the item of rank `k` (`k` < 9) is truthy. */
  predicate FieldTruthy(a: Agent, k: nat)
    requires k < 9
  {
    match k
    case 0 => StrTruthy(a.version)
    case 1 => StrTruthy(a.hostname)
    case 2 => IntTruthy(a.pid)
    case 3 => StrTruthy(a.ipAddress)
    case 4 => StrTruthy(a.userAgent)
    case 5 => StrTruthy(a.operatingSystem)
    case 6 => IntTruthy(a.priority)
    case 7 => a.job.Some?
    case _ => StrTruthy(a.connectedAt)
  }

  /** The "(last check-in was …)" note of the Connected item. */
  function LastCheckIn(a: Agent): (r: Option<string>)
    ensures r.Some? <==> StrTruthy(a.pingedAt) && a.connectionState == "connected"
  {
    if StrTruthy(a.pingedAt) && a.connectionState == "connected" then a.pingedAt else None
  }

  /** The item of rank `k` (`k` < 9) that the agent's fields contribute, if any. */
  function FieldItem(a: Agent, k: nat): (r: seq<Extra>)
    requires k < 9
    ensures |r| <= 1
    ensures r != [] <==> FieldTruthy(a, k)
    ensures forall e :: e in r ==> Rank(e) == k
  {
    if !FieldTruthy(a, k) then []
    else match k
      case 0 => [VersionItem(a.version.value)]
      case 1 => [HostnameItem(a.hostname.value)]
      case 2 => [PidItem(a.pid.value)]
      case 3 => [IpAddressItem(a.ipAddress.value)]
      case 4 => [UserAgentItem(a.userAgent.value)]
      case 5 => [OperatingSystemItem(a.operatingSystem.value)]
      case 6 => [PriorityItem(a.priority.value)]
      case 7 => [RunningItem(a.job.value)]
      case _ => [ConnectedItem(a.connectedAt.value, LastCheckIn(a))]
  }

  /** The items of ranks below `n` contributed by the agent's fields, in rank order. */
  function FieldItems(a: Agent, n: nat): (r: seq<Extra>)
    requires n <= 9
    ensures |r| <= n
    ensures forall e :: e in r ==> Rank(e) < n && e in FieldItem(a, Rank(e))
  {
    if n == 0 then [] else FieldItems(a, n - 1) + FieldItem(a, n - 1)
  }

  /** The items that depend on the connection state; reading `stoppedBy.name` of a null user throws. */
  function StateItems(a: Agent): (r: Completion<seq<Extra>>)
    ensures r.Threw? <==>
              (a.connectionState == "stopped" || a.connectionState == "stopping") && a.stoppedBy.None?
    ensures r.Normal? ==> |r.value| <= 2 && forall e :: e in r.value ==> Rank(e) >= 9
  {
    if a.connectionState == "disconnected" then
      Normal([DisconnectedItem(a.disconnectedAt)])
    else if a.connectionState == "lost" then
      Normal([LostItem(a.lostAt)])
    else if a.connectionState == "stopped" || a.connectionState == "stopping" then
      if a.stoppedBy.None? then
        Threw(TypeError("Cannot read property 'name' of null"))
      else
        Normal([StoppedItem(a.stoppedAt, a.stoppedBy.value.name)]
               + (if StrTruthy(a.disconnectedAt) then [DisconnectedItem(a.disconnectedAt)] else []))
    else
      Normal([])
  }

  /** What `renderExtras` returns: the field items, then the state items. */
  function Extras(a: Agent): (r: Completion<seq<Extra>>)
    ensures r.Threw? <==> StateItems(a).Threw?
    ensures r.Normal? ==>
              && FieldItems(a, 9) <= r.value
              && |r.value| <= 11
              && forall i :: |FieldItems(a, 9)| <= i < |r.value| ==> Rank(r.value[i]) >= 9
  {
    match StateItems(a)
    case Threw(err) => Threw(err)
    case Normal(tail) => Normal(FieldItems(a, 9) + tail)
  }

  /** `renderExtras`: pushes each item whose field is truthy, then the state items. */
  method RenderExtras(agent: Agent) returns (r: Completion<seq<Extra>>)
    ensures r == Extras(agent)
  {
    var extras := PushFieldItems(agent);
    r := PushStateItems(agent, extras);
  }

  /** The first nine pushes of `renderExtras`, one per optional field. */
  method PushFieldItems(agent: Agent) returns (extras: seq<Extra>)
    ensures extras == FieldItems(agent, 9)
  {
    extras := [];
    if StrTruthy(agent.version) {
      extras := extras + [VersionItem(agent.version.value)];
    }
    assert extras == FieldItems(agent, 1);
    if StrTruthy(agent.hostname) {
      extras := extras + [HostnameItem(agent.hostname.value)];
    }
    assert extras == FieldItems(agent, 2);
    if IntTruthy(agent.pid) {
      extras := extras + [PidItem(agent.pid.value)];
    }
    assert extras == FieldItems(agent, 3);
    if StrTruthy(agent.ipAddress) {
      extras := extras + [IpAddressItem(agent.ipAddress.value)];
    }
    assert extras == FieldItems(agent, 4);
    if StrTruthy(agent.userAgent) {
      extras := extras + [UserAgentItem(agent.userAgent.value)];
    }
    assert extras == FieldItems(agent, 5);
    if StrTruthy(agent.operatingSystem) {
      extras := extras + [OperatingSystemItem(agent.operatingSystem.value)];
    }
    assert extras == FieldItems(agent, 6);
    if IntTruthy(agent.priority) {
      extras := extras + [PriorityItem(agent.priority.value)];
    }
    assert extras == FieldItems(agent, 7);
    if agent.job.Some? {
      extras := extras + [RunningItem(agent.job.value)];
    }
    assert extras == FieldItems(agent, 8);
    if StrTruthy(agent.connectedAt) {
      extras := extras + [ConnectedItem(agent.connectedAt.value, LastCheckIn(agent))];
    }
    assert extras == FieldItems(agent, 9);
  }

  /** The pushes of `renderExtras` that depend on the connection state. */
  method PushStateItems(agent: Agent, fieldItems: seq<Extra>) returns (r: Completion<seq<Extra>>)
    ensures StateItems(agent).Threw? ==> r == StateItems(agent)
    ensures StateItems(agent).Normal? ==> r == Normal(fieldItems + StateItems(agent).value)
  {
    var extras := fieldItems;
    if agent.connectionState == "disconnected" {
      extras := extras + [DisconnectedItem(agent.disconnectedAt)];
    } else if agent.connectionState == "lost" {
      extras := extras + [LostItem(agent.lostAt)];
    } else if agent.connectionState == "stopped" || agent.connectionState == "stopping" {
      if agent.stoppedBy.None? {
        return Threw(TypeError("Cannot read property 'name' of null"));
      }
      extras := extras + [StoppedItem(agent.stoppedAt, agent.stoppedBy.value.name)];
      if StrTruthy(agent.disconnectedAt) {
        extras := extras + [DisconnectedItem(agent.disconnectedAt)];
      }
    }
    assert StateItems(agent).Normal? && extras == fieldItems + StateItems(agent).value;
    r := Normal(extras);
  }

  lemma AppendRanked(xs: seq<Extra>, ys: seq<Extra>)
    requires StrictlyRanked(xs) && StrictlyRanked(ys)
    requires forall i, j :: 0 <= i < |xs| && 0 <= j < |ys| ==> Rank(xs[i]) < Rank(ys[j])
    ensures StrictlyRanked(xs + ys)
  {
    forall i, j | 0 <= i < j < |xs + ys|
      ensures Rank((xs + ys)[i]) < Rank((xs + ys)[j])
    {
      if j < |xs| {
      } else if i >= |xs| {
        assert (xs + ys)[i] == ys[i - |xs|] && (xs + ys)[j] == ys[j - |xs|];
      } else {
        assert (xs + ys)[j] == ys[j - |xs|];
      }
    }
  }

  /** The field items come in rank order, all of rank below `n`, and at most `n` of them. */
  lemma {:induction false} FieldItemsRanked(a: Agent, n: nat)
    requires n <= 9
    ensures StrictlyRanked(FieldItems(a, n))
    ensures forall e :: e in FieldItems(a, n) ==> Rank(e) < n
    ensures |FieldItems(a, n)| <= n
  {
    if n > 0 {
      FieldItemsRanked(a, n - 1);
      var xs, ys := FieldItems(a, n - 1), FieldItem(a, n - 1);
      assert forall i :: 0 <= i < |xs| ==> xs[i] in xs;
      assert forall j :: 0 <= j < |ys| ==> ys[j] in ys;
      AppendRanked(xs, ys);
    }
  }

  /** An item of rank `k` is among the field items exactly when it is the one field `k` contributes. */
  lemma {:induction false} FieldItemsMembers(a: Agent, n: nat, e: Extra)
    requires n <= 9
    ensures e in FieldItems(a, n) <==> Rank(e) < n && e in FieldItem(a, Rank(e))
  {
    if n > 0 {
      FieldItemsMembers(a, n - 1, e);
    }
  }

  /** The state items: at most one connection-state branch contributes, after every field item. */
  lemma StateItemsShape(a: Agent)
    ensures StateItems(a).Normal? ==>
              StrictlyRanked(StateItems(a).value)
              && |StateItems(a).value| <= 2
              && forall e :: e in StateItems(a).value ==> Rank(e) >= 9
  {
  }

  /** The items come in the fixed order Version, Hostname, PID, IP Address, User Agent, OS,
      Priority, Running, Connected, then the state items; no title appears twice; at most 11. */
  lemma ExtrasOrdered(a: Agent)
    ensures Extras(a).Normal? ==>
              var xs := Extras(a).value;
              && StrictlyRanked(xs)
              && (forall i, j :: 0 <= i < j < |xs| ==> Label(xs[i]) != Label(xs[j]))
              && |xs| <= 11
  {
    if Extras(a).Normal? {
      var xs, ys := FieldItems(a, 9), StateItems(a).value;
      FieldItemsRanked(a, 9);
      StateItemsShape(a);
      assert forall i :: 0 <= i < |xs| ==> xs[i] in xs;
      assert forall j :: 0 <= j < |ys| ==> ys[j] in ys;
      AppendRanked(xs, ys);
      var zs := xs + ys;
      forall i, j | 0 <= i < j < |zs|
        ensures Label(zs[i]) != Label(zs[j])
      {
        if Label(zs[i]) == Label(zs[j]) {
          LabelDeterminesRank(zs[i], zs[j]);
          assert false;
        }
      }
    }
  }

  /** Showing a field item's title is the same as containing an item of its rank. */
  lemma ShowsRank(xs: seq<Extra>, k: nat)
    requires k < |Labels|
    ensures Shows(xs, Labels[k]) <==> exists e :: e in xs && Rank(e) == k
  {
    if Shows(xs, Labels[k]) {
      var e :| e in xs && Label(e) == Labels[k];
      assert forall i, j :: 0 <= i < j < |Labels| ==> Labels[i] != Labels[j];
    }
  }

  /** Each field item is shown exactly when its field is truthy (so a `pid` or `priority`
      of 0, or an empty string, is left out). */
  lemma ExtrasFieldPresence(a: Agent, k: nat)
    requires k < 9
    requires Extras(a).Normal?
    ensures Shows(Extras(a).value, Labels[k]) <==> FieldTruthy(a, k)
  {
    var xs, ys := FieldItems(a, 9), StateItems(a).value;
    StateItemsShape(a);
    ShowsRank(xs + ys, k);
    if FieldTruthy(a, k) {
      var e := FieldItem(a, k)[0];
      FieldItemsMembers(a, 9, e);
    } else if e :| e in xs + ys && Rank(e) == k {
      FieldItemsMembers(a, 9, e);
    }
  }

  /** A disconnected agent shows Disconnected and neither Lost nor Stopped. */
  lemma ExtrasWhenDisconnected(a: Agent)
    requires a.connectionState == "disconnected"
    ensures Extras(a).Normal?
    ensures Shows(Extras(a).value, "Disconnected")
    ensures !Shows(Extras(a).value, "Lost") && !Shows(Extras(a).value, "Stopped")
  {
    LostStoppedDisconnected();
    ShowsStateTitle(a, 9);
    ShowsStateTitle(a, 10);
    ShowsStateTitle(a, 11);
    var tail := StateItems(a).value;
    assert tail[0] in tail && Rank(tail[0]) == 11;
  }

  /** A lost agent shows Lost and neither Disconnected nor Stopped. */
  lemma ExtrasWhenLost(a: Agent)
    requires a.connectionState == "lost"
    ensures Extras(a).Normal?
    ensures Shows(Extras(a).value, "Lost")
    ensures !Shows(Extras(a).value, "Disconnected") && !Shows(Extras(a).value, "Stopped")
  {
    LostStoppedDisconnected();
    ShowsStateTitle(a, 9);
    ShowsStateTitle(a, 10);
    ShowsStateTitle(a, 11);
    var tail := StateItems(a).value;
    assert tail[0] in tail && Rank(tail[0]) == 9;
  }

  /** A stopped or stopping agent shows Stopped, then Disconnected exactly when `disconnectedAt`
      is set, and never Lost; without a `stoppedBy` user the items throw. */
  lemma ExtrasWhenStopped(a: Agent)
    requires a.connectionState == "stopped" || a.connectionState == "stopping"
    ensures Extras(a).Threw? <==> a.stoppedBy.None?
    ensures Extras(a).Normal? ==>
              && Shows(Extras(a).value, "Stopped")
              && !Shows(Extras(a).value, "Lost")
              && (Shows(Extras(a).value, "Disconnected") <==> StrTruthy(a.disconnectedAt))
  {
    if Extras(a).Normal? {
      LostStoppedDisconnected();
      ShowsStateTitle(a, 9);
      ShowsStateTitle(a, 10);
      ShowsStateTitle(a, 11);
      var tail := StateItems(a).value;
      assert tail[0] in tail && Rank(tail[0]) == 10;
      if StrTruthy(a.disconnectedAt) {
        assert tail[1] in tail && Rank(tail[1]) == 11;
      }
    }
  }

  /** In every other state, `connected` included, no state item is shown. */
  lemma ExtrasOtherStates(a: Agent)
    requires a.connectionState !in {"disconnected", "lost", "stopped", "stopping"}
    ensures Extras(a).Normal?
    ensures !Shows(Extras(a).value, "Disconnected") && !Shows(Extras(a).value, "Lost")
    ensures !Shows(Extras(a).value, "Stopped")
  {
    LostStoppedDisconnected();
    ShowsStateTitle(a, 9);
    ShowsStateTitle(a, 10);
    ShowsStateTitle(a, 11);
  }

  lemma LostStoppedDisconnected()
    ensures Labels[9] == "Lost" && Labels[10] == "Stopped" && Labels[11] == "Disconnected"
  {
  }

  /** A state title is shown exactly when a state item of its rank is present. */
  lemma ShowsStateTitle(a: Agent, k: nat)
    requires 9 <= k < |Labels| && Extras(a).Normal?
    ensures Shows(Extras(a).value, Labels[k]) <==> exists e :: e in StateItems(a).value && Rank(e) == k
  {
    var xs, tail := FieldItems(a, 9), StateItems(a).value;
    FieldItemsRanked(a, 9);
    ShowsRank(xs + tail, k);
  }

  /** The Connected item carries the last check-in note exactly when `pingedAt` is set and
      the agent is connected. */
  lemma ExtrasLastCheckIn(a: Agent, e: Extra)
    requires Extras(a).Normal? && e in Extras(a).value && e.ConnectedItem?
    ensures a.connectedAt == Some(e.connectedAt)
    ensures e.lastCheckIn.Some? <==> StrTruthy(a.pingedAt) && a.connectionState == "connected"
  {
    StateItemsShape(a);
    FieldItemsMembers(a, 9, e);
  }

  // ---------------------------------------------------------------------
  // renderStopRow

  /** The stop button; `loading` is the label shown while the stop is in flight. */
  datatype StopButton = StopButton(loading: Option<string>)

  /** `renderStopRow`: the row exists only for a connected agent whose `agentStop` is allowed. */
  function RenderStopRow(a: Agent, stopping: bool): (r: Option<StopButton>)
    ensures r.Some? <==> a.connectionState == "connected" && a.agentStopAllowed
    ensures r.Some? ==> (r.value.loading.Some? <==> stopping)
    ensures r.Some? && stopping ==> r.value.loading == Some("Stopping\U{2026}")
  {
    if a.connectionState != "connected" then None
    else if !a.agentStopAllowed then None
    else Some(StopButton(if stopping then Some("Stopping\U{2026}") else None))
  }

  // ---------------------------------------------------------------------
  // The meta-data panel of render

  /** The text of the meta-data panel; sorts `metaData` in place when it has entries. */
  method RenderMetaData(metaData: array?<string>) returns (text: string)
    modifies metaData
    ensures metaData == null || metaData.Length == 0 ==> text == "None"
    ensures metaData != null && metaData.Length == 0 ==> metaData[..] == old(metaData[..])
    ensures metaData != null && metaData.Length > 0 ==>
              && Sorted(metaData[..])
              && multiset(metaData[..]) == multiset(old(metaData[..]))
              && text == Join(metaData[..], '\n')
  {
    text := "None";
    if metaData != null && metaData.Length > 0 {
      SortInPlace(metaData);
      text := Join(metaData[..], '\n');
    }
  }

  /** The panel text lists each entry once, in ascending order, when no entry holds a newline. */
  lemma MetaDataTextLines(entries: seq<string>, sorted: seq<string>)
    requires |entries| > 0
    requires Sorted(sorted) && multiset(sorted) == multiset(entries)
    requires forall i :: 0 <= i < |entries| ==> '\n' !in entries[i]
    ensures Split(Join(sorted, '\n'), '\n') == sorted
    ensures multiset(Split(Join(sorted, '\n'), '\n')) == multiset(entries)
  {
    assert |sorted| == |multiset(entries)| == |entries|;
    forall i | 0 <= i < |sorted|
      ensures '\n' !in sorted[i]
    {
      assert sorted[i] in multiset(entries);
    }
    SplitJoin(sorted, '\n');
  }

  // ---------------------------------------------------------------------
  // The component and its local state

  datatype Phase = Constructed | Mounted | Unmounted

  /** The callbacks the stop mutation is committed with. */
  datatype Callback = MutationSuccessHandler | MutationErrorHandler

  /** What the component asks of the outside world, in order. */
  datatype Effect =
    | PreventDefault
    | SetStopping(stopping: bool)
    | CommitAgentStop(agentId: string, graceful: bool, onSuccess: Callback, onFailure: Callback)
    | ShowFlash(flash: Flash)
    | SetInterval(handle: nat)
    | ClearInterval(cleared: Option<nat>)
    | ForceFetch(force: bool)

  /** The rendered page: status items, meta-data text and the optional stop row. */
  datatype AgentView = AgentView(extras: seq<Extra>, metaDataText: string, stopRow: Option<StopButton>)

  class AgentShow {
    var agent: Agent
    var metaData: array?<string>
    var stopping: bool
    var phase: Phase
    /** `_agentRefreshInterval`: the handle of the refresh timer, once mounted. */
    var refreshInterval: Option<nat>
    /** The timers of this component that the browser still runs. */
    var activeIntervals: set<nat>
    var effects: seq<Effect>

    /** The refresh timer runs exactly while the component is mounted. */
    ghost predicate Valid()
      reads this
    {
      match phase
      case Constructed => refreshInterval.None? && activeIntervals == {}
      case Mounted => refreshInterval.Some? && activeIntervals == {refreshInterval.value}
      case Unmounted => activeIntervals == {}
    }

    constructor (agent: Agent, metaData: array?<string>)
      ensures Valid()
      ensures this.agent == agent && this.metaData == metaData
      ensures !stopping && phase == Constructed && effects == []
    {
      this.agent := agent;
      this.metaData := metaData;
      stopping := false;
      phase := Constructed;
      refreshInterval := None;
      activeIntervals := {};
      effects := [];
    }

    /** `componentDidMount`: starts the refresh timer, whose handle the browser picks. */
    method ComponentDidMount(handle: nat)
      requires Valid() && phase == Constructed
      modifies this
      ensures Valid() && phase == Mounted
      ensures refreshInterval == Some(handle) && handle in activeIntervals
      ensures effects == old(effects) + [SetInterval(handle)]
      ensures agent == old(agent) && metaData == old(metaData) && stopping == old(stopping)
    {
      refreshInterval := Some(handle);
      activeIntervals := activeIntervals + {handle};
      effects := effects + [SetInterval(handle)];
      phase := Mounted;
    }

    /** `componentWillUnmount`: clears the refresh timer; no refresh runs afterwards. */
    method ComponentWillUnmount()
      requires Valid()
      modifies this
      ensures Valid() && phase == Unmounted
      ensures activeIntervals == {} && refreshInterval == old(refreshInterval)
      ensures effects == old(effects) + [ClearInterval(old(refreshInterval))]
      ensures agent == old(agent) && metaData == old(metaData) && stopping == old(stopping)
    {
      if refreshInterval.Some? {
        activeIntervals := activeIntervals - {refreshInterval.value};
      }
      effects := effects + [ClearInterval(refreshInterval)];
      phase := Unmounted;
    }

    /** A tick of a live timer runs `fetchUpdatedData`; only a mounted page has one. */
    method RefreshTick(handle: nat)
      requires Valid() && handle in activeIntervals
      modifies this
      ensures Valid() && old(phase) == Mounted && phase == Mounted
      ensures effects == old(effects) + [ForceFetch(true)]
      ensures agent == old(agent) && metaData == old(metaData) && stopping == old(stopping)
      ensures refreshInterval == old(refreshInterval) && activeIntervals == old(activeIntervals)
    {
      effects := effects + [ForceFetch(true)];
    }

    /** `handleStopButtonClick`: sets `stopping` before committing the stop mutation. */
    method HandleStopButtonClick()
      requires Valid()
      modifies this
      ensures Valid() && stopping
      ensures effects == old(effects) + [
        PreventDefault,
        SetStopping(true),
        CommitAgentStop(agent.id, false, MutationSuccessHandler, MutationErrorHandler)
      ]
      ensures agent == old(agent) && metaData == old(metaData) && phase == old(phase)
      ensures refreshInterval == old(refreshInterval) && activeIntervals == old(activeIntervals)
    {
      effects := effects + [PreventDefault];
      stopping := true;
      effects := effects + [SetStopping(true)];
      effects := effects + [CommitAgentStop(agent.id, false, MutationSuccessHandler, MutationErrorHandler)];
    }

    /** `handleMutationSuccess`: clears `stopping`. */
    method HandleMutationSuccess()
      requires Valid()
      modifies this
      ensures Valid() && !stopping
      ensures effects == old(effects) + [SetStopping(false)]
      ensures agent == old(agent) && metaData == old(metaData) && phase == old(phase)
      ensures refreshInterval == old(refreshInterval) && activeIntervals == old(activeIntervals)
    {
      stopping := false;
      effects := effects + [SetStopping(false)];
    }

    /** `handleMutationError`: pushes one ERROR flash with the transaction's error, then clears `stopping`. */
    method HandleMutationError(error: string)
      requires Valid()
      modifies this
      ensures Valid() && !stopping
      ensures effects == old(effects) + [ShowFlash(Flash(ERROR, error)), SetStopping(false)]
      ensures agent == old(agent) && metaData == old(metaData) && phase == old(phase)
      ensures refreshInterval == old(refreshInterval) && activeIntervals == old(activeIntervals)
    {
      effects := effects + [ShowFlash(Flash(ERROR, error))];
      stopping := false;
      effects := effects + [SetStopping(false)];
    }

    /** `render`: sorts the meta-data first, then builds the items and the stop row. */
    method Render() returns (view: Completion<AgentView>)
      modifies metaData
      ensures metaData != null && metaData.Length > 0 ==>
                Sorted(metaData[..]) && multiset(metaData[..]) == multiset(old(metaData[..]))
      ensures metaData != null && metaData.Length == 0 ==> metaData[..] == old(metaData[..])
      ensures Extras(agent).Threw? ==> view == Threw(Extras(agent).error)
      ensures Extras(agent).Normal? ==>
                && view.Normal?
                && view.value.extras == Extras(agent).value
                && view.value.stopRow == RenderStopRow(agent, stopping)
                && (metaData == null || metaData.Length == 0 ==> view.value.metaDataText == "None")
                && (metaData != null && metaData.Length > 0 ==>
                      view.value.metaDataText == Join(metaData[..], '\n'))
    {
      var text := RenderMetaData(metaData);
      var extras := RenderExtras(agent);
      match extras
      case Threw(err) =>
        view := Threw(err);
      case Normal(items) =>
        view := Normal(AgentView(items, text, RenderStopRow(agent, stopping)));
    }
  }
}
