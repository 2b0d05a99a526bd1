/**
 Applying a DMX universe table, app/src/applyDmxUniverseTable.ts with the plan rules of
 app/src/dmxUniverseTable.ts: a declared plan is turned into an ordered list of stages, and the
 stages are run one by one until one fails or the project changes.

 `Device` is what the stages act on: which cable each universe is bound to, which universes are
 running, and the network routes.  Each stage's fate is the environment's choice, an `Outcome`.
 */
module DmxApply {
  import opened Prelude

  /** A serial port, or the identity stored in a binding; absent and null fields are None. */
  datatype Port = Port(name: string, portType: string, vid: Option<int>, pid: Option<int>,
                       serial: Option<string>, manufacturer: Option<string>, product: Option<string>,
                       windowsId: Option<string>, macId: Option<string>)

  datatype Row = Row(universe: int, enabled: bool, port: Option<Port>)
  datatype Binding = Binding(universe: int, identity: Port, present: bool)
  datatype Cable = Cable(universe: Option<int>, active: bool, faulted: bool, shutdownCompleted: bool,
                         liveFrameQueued: bool, zeroFrameQueued: bool, zeroFrameWritten: bool)
  datatype Status = Status(bindings: seq<Binding>, cables: seq<Cable>)

  /** Network routes matter only up to equality of their payloads. */
  type Network = seq<string>

  datatype Plan = Plan(network: Network, usb: seq<Row>)

  /** `otherwiseRefused`: the validator refuses for a reason not modelled here. */
  datatype Context = Context(current: bool, status: Option<Status>, stale: bool, blackout: bool, legacyActive: bool,
                             network: Network, otherwiseRefused: bool, refreshes: bool)

  datatype Stage =
    | Authority
    | StopUsb(universe: int)
    | ClearUsb(universe: int)
    | BindUsb(universe: int, port: Port)
    | ApplyNetwork(network: Network)
    | StartUsb(universe: int)
    | Refresh

  // ---- the physical identity of a cable ----

  function Lower(s: string): string {
    seq(|s|, i requires 0 <= i < |s| => if 'A' <= s[i] <= 'Z' then s[i] - 'A' + 'a' else s[i])
  }

  predicate SameText(l: Option<string>, r: Option<string>) {
    l.Some? && r.Some? && l.value != "" && r.value != "" && Lower(l.value) == Lower(r.value)
  }

  predicate SameCable(a: Port, b: Port) {
    || SameText(Some(a.name), Some(b.name))
    || SameText(a.windowsId, b.windowsId)
    || SameText(a.macId, b.macId)
    || (a.vid == b.vid && a.pid == b.pid && a.serial == b.serial)
  }

  // ---- planning ----

  function FindBinding(bindings: seq<Binding>, universe: int): (r: Option<Binding>)
    ensures r.Some? ==> r.value in bindings && r.value.universe == universe
    ensures r.None? ==> forall b :: b in bindings ==> b.universe != universe
  {
    if bindings == [] then None
    else if bindings[0].universe == universe then Some(bindings[0])
    else FindBinding(bindings[1..], universe)
  }

  function FindCable(cables: seq<Cable>, universe: int): (r: Option<Cable>)
    ensures r.Some? ==> r.value in cables && r.value.universe == Some(universe)
    ensures r.None? ==> forall c :: c in cables ==> c.universe != Some(universe)
  {
    if cables == [] then None
    else if cables[0].universe == Some(universe) then Some(cables[0])
    else FindCable(cables[1..], universe)
  }

  predicate SameBinding(binding: Option<Binding>, port: Port) {
    binding.Some? && binding.value.identity == port
  }

  /** A requested port that is already bound is no request. */
  function Admit(row: Row, status: Status): Row {
    if row.port.Some? && SameBinding(FindBinding(status.bindings, row.universe), row.port.value)
    then row.(port := None) else row
  }

  function Desired(rows: seq<Row>, status: Status): (r: seq<Row>)
    ensures |r| == |rows| && forall i :: 0 <= i < |rows| ==> r[i] == Admit(rows[i], status)
  {
    seq(|rows|, i requires 0 <= i < |rows| => Admit(rows[i], status))
  }

  predicate Lists(rows: seq<Row>, universe: int) {
    exists row :: row in rows && row.universe == universe
  }

  predicate Enables(rows: seq<Row>, universe: int) {
    exists row :: row in rows && row.universe == universe && row.enabled
  }

  predicate Running(cables: seq<Cable>, universe: int) {
    exists c :: c in cables && c.universe == Some(universe) && c.active
  }

  predicate NeedsRebind(row: Row, status: Status) {
    row.port.Some? && !SameBinding(FindBinding(status.bindings, row.universe), row.port.value)
  }

  function Rebind(rows: seq<Row>, status: Status): seq<Row> {
    Filter((row: Row) => NeedsRebind(row, status), rows)
  }

  function Removed(rows: seq<Row>, status: Status): seq<Binding> {
    Filter((b: Binding) => !Lists(rows, b.universe), status.bindings)
  }

  predicate MustStop(c: Cable, rows: seq<Row>, status: Status) {
    c.universe.Some? && c.active
    && (!Enables(rows, c.universe.value) || Lists(Rebind(rows, status), c.universe.value))
  }

  function Stops(rows: seq<Row>, status: Status): seq<Cable> {
    Filter((c: Cable) => MustStop(c, rows, status), status.cables)
  }

  predicate MustStart(row: Row, rows: seq<Row>, status: Status) {
    row.enabled && (!Running(status.cables, row.universe) || Lists(Rebind(rows, status), row.universe))
  }

  function Starts(rows: seq<Row>, status: Status): seq<Row> {
    Filter((row: Row) => MustStart(row, rows, status), rows)
  }

  /** Bindings to release: those of removed universes, then the old ones of rebound universes. */
  function Clears(rows: seq<Row>, status: Status): seq<Binding> {
    Removed(rows, status) + OldBindings(Rebind(rows, status), status)
  }

  function OldBindings(rows: seq<Row>, status: Status): (r: seq<Binding>)
    ensures forall b :: b in r ==> b in status.bindings && Lists(rows, b.universe)
    ensures forall row :: row in rows ==> var b := FindBinding(status.bindings, row.universe); b.Some? ==> b.value in r
  {
    if rows == [] then []
    else
      var b := FindBinding(status.bindings, rows[0].universe);
      (if b.Some? then [b.value] else []) + OldBindings(rows[1..], status)
  }

  function FinalPort(row: Row, status: Status): Option<Port> {
    if row.port.Some? then row.port
    else
      var b := FindBinding(status.bindings, row.universe);
      if b.Some? then Some(b.value.identity) else None
  }

  predicate ValidRows(rows: seq<Row>, status: Status) {
    && |rows| <= 4
    && (forall i :: 0 <= i < |rows| ==> 0 <= rows[i].universe <= 32767 && FinalPort(rows[i], status).Some?)
    && (forall i, j :: 0 <= i < j < |rows| ==> rows[i].universe != rows[j].universe)
    && (forall i, j :: 0 <= i < j < |rows| ==> Apart(FinalPort(rows[i], status), FinalPort(rows[j], status)))
  }

  predicate Apart(a: Option<Port>, b: Option<Port>) {
    a.Some? && b.Some? ==> !SameCable(a.value, b.value)
  }

  function FindRow(rows: seq<Row>, universe: int): Option<Row> {
    if rows == [] then None
    else if rows[0].universe == universe then Some(rows[0])
    else FindRow(rows[1..], universe)
  }

  predicate CableAllows(c: Cable, rows: seq<Row>, blackout: bool) {
    c.universe.Some? ==>
      var next := FindRow(rows, c.universe.value);
      var stopping := next.None? || (c.active && !next.value.enabled) || next.value.port.Some?;
      stopping ==> ((c.active || c.faulted || c.liveFrameQueued) ==> blackout) && (c.shutdownCompleted || c.active)
  }

  predicate ValidPlan(rows: seq<Row>, status: Status, blackout: bool) {
    ValidRows(rows, status) && forall c :: c in status.cables ==> CableAllows(c, rows, blackout)
  }

  datatype Rejection =
    | ProjectChanged
    | NeedsRefresh
    | LegacyRouteActive
    | InvalidPlan
    | NeedsBlackout
    | WaitForStop(universe: int)
    | RecoveryNeedsBlackout(universe: int)
    | Reconnect(universe: int)

  /** What one universe's mutation still has to wait for. */
  function Obstacle(universe: int, rows: seq<Row>, status: Status, blackout: bool): Option<Rejection> {
    var cable := FindCable(status.cables, universe);
    var binding := FindBinding(status.bindings, universe);
    var willStop := exists c :: c in Stops(rows, status) && c.universe == Some(universe);
    if cable.Some? && !willStop && (!cable.value.shutdownCompleted || cable.value.liveFrameQueued
        || (cable.value.zeroFrameQueued && !cable.value.zeroFrameWritten && !cable.value.faulted))
    then Some(WaitForStop(universe))
    else if cable.Some? && !willStop && cable.value.faulted && !blackout
    then Some(RecoveryNeedsBlackout(universe))
    else if Lists(Starts(rows, status), universe) && !Lists(Rebind(rows, status), universe)
            && !(binding.Some? && binding.value.present)
    then Some(Reconnect(universe))
    else None
  }

  function FirstObstacle(universes: seq<int>, rows: seq<Row>, status: Status, blackout: bool): (r: Option<Rejection>)
    ensures r.None? ==> forall u :: u in universes ==> Obstacle(u, rows, status, blackout).None?
  {
    if universes == [] then None
    else
      var o := Obstacle(universes[0], rows, status, blackout);
      if o.Some? then o else FirstObstacle(universes[1..], rows, status, blackout)
  }

  function RowUniverses(rows: seq<Row>): (r: seq<int>)
    ensures forall u :: u in r <==> Lists(rows, u)
  {
    if rows == [] then [] else
      assert forall row :: row in rows ==> row == rows[0] || row in rows[1..];
      [rows[0].universe] + RowUniverses(rows[1..])
  }

  function BindingUniverses(bindings: seq<Binding>): seq<int> {
    seq(|bindings|, i requires 0 <= i < |bindings| => bindings[i].universe)
  }

  function Mutating(rows: seq<Row>, status: Status): seq<int> {
    RowUniverses(Rebind(rows, status)) + BindingUniverses(Removed(rows, status)) + RowUniverses(Starts(rows, status))
  }

  function StopStages(cables: seq<Cable>): seq<Stage>
    requires forall c :: c in cables ==> c.universe.Some?
  {
    seq(|cables|, i requires 0 <= i < |cables| => StopUsb(cables[i].universe.value))
  }

  function ClearStages(bindings: seq<Binding>): seq<Stage> {
    seq(|bindings|, i requires 0 <= i < |bindings| => ClearUsb(bindings[i].universe))
  }

  function BindStages(rows: seq<Row>): seq<Stage>
    requires forall row :: row in rows ==> row.port.Some?
  {
    seq(|rows|, i requires 0 <= i < |rows| => BindUsb(rows[i].universe, rows[i].port.value))
  }

  function StartStages(rows: seq<Row>): seq<Stage> {
    seq(|rows|, i requires 0 <= i < |rows| => StartUsb(rows[i].universe))
  }

  function NetworkStages(plan: Plan, ctx: Context): seq<Stage> {
    if ctx.network != plan.network then [ApplyNetwork(plan.network)] else []
  }

  /** The stages that touch the device, in their order. */
  function Mutations(rows: seq<Row>, status: Status, plan: Plan, ctx: Context): seq<Stage> {
    StopStages(Stops(rows, status)) + ClearStages(Clears(rows, status)) + BindStages(Rebind(rows, status))
    + NetworkStages(plan, ctx) + StartStages(Starts(rows, status))
  }

  datatype Decision = Reject(reason: Rejection) | Nothing | Go(stages: seq<Stage>)

  function Decide(plan: Plan, ctx: Context): Decision {
    if !ctx.current then Reject(ProjectChanged)
    else if ctx.status.None? || ctx.stale then Reject(NeedsRefresh)
    else if ctx.legacyActive then Reject(LegacyRouteActive)
    else
      var status := ctx.status.value;
      var rows := Desired(plan.usb, status);
      if !ValidPlan(rows, status, ctx.blackout) || ctx.otherwiseRefused then Reject(InvalidPlan)
      else if Stops(rows, status) != [] && !ctx.blackout then Reject(NeedsBlackout)
      else
        var obstacle := FirstObstacle(Mutating(rows, status), rows, status, ctx.blackout);
        if obstacle.Some? then Reject(obstacle.value)
        else
          var work := Mutations(rows, status, plan, ctx);
          if Stops(rows, status) == [] && Rebind(rows, status) == [] && Removed(rows, status) == []
             && Starts(rows, status) == [] && ctx.network == plan.network
          then Nothing
          else Go([Authority] + work + if ctx.refreshes then [Refresh] else [])
  }

  // ---- the device ----

  datatype Device = Device(bindings: map<int, Port>, active: set<int>, network: Network)

  function Effect(d: Device, stage: Stage): Device {
    match stage
    case StopUsb(u) => d.(active := d.active - {u})
    case ClearUsb(u) => d.(bindings := d.bindings - {u})
    case BindUsb(u, port) => d.(bindings := d.bindings[u := port])
    case ApplyNetwork(network) => d.(network := network)
    case StartUsb(u) => d.(active := d.active + {u})
    case Authority => d
    case Refresh => d
  }

  function After(d: Device, stages: seq<Stage>): Device
    decreases |stages|
  {
    if stages == [] then d else Effect(After(d, stages[..|stages| - 1]), stages[|stages| - 1])
  }

  /** No cable serves two universes. */
  ghost predicate OneUniversePerCable(d: Device) {
    forall u, v :: u in d.bindings && v in d.bindings && u != v ==> !SameCable(d.bindings[u], d.bindings[v])
  }

  /** A stage that must not hurt: only idle universes are released or bound, only bound ones started. */
  ghost predicate Permits(d: Device, stage: Stage) {
    match stage
    case ClearUsb(u) => u !in d.active
    case BindUsb(u, port) =>
      u !in d.active && u !in d.bindings && forall v :: v in d.bindings ==> !SameCable(d.bindings[v], port)
    case StartUsb(u) => u in d.bindings
    case _ => true
  }

  /** The status is a true reading of the device. */
  ghost predicate Faithful(status: Status, d: Device) {
    && (forall i, j :: 0 <= i < j < |status.bindings| ==> status.bindings[i].universe != status.bindings[j].universe)
    && (forall b :: b in status.bindings ==> b.universe in d.bindings && d.bindings[b.universe] == b.identity)
    && (forall u :: u in d.bindings ==> FindBinding(status.bindings, u).Some?)
    && (forall u :: u in d.active <==> Running(status.cables, u))
    && OneUniversePerCable(d)
  }

  /** The whole of d satisfies the plan. */
  ghost predicate Meets(d: Device, rows: seq<Row>, status: Status, network: Network) {
    && (forall u :: u in d.bindings <==> Lists(rows, u))
    && (forall row :: row in rows ==>
          row.universe in d.bindings && Some(d.bindings[row.universe]) == FinalPort(row, status))
    && (forall u :: u in d.active <==> Enables(rows, u))
    && d.network == network
  }

  // ---- running the stages ----

  datatype Outcome = Done | StaleBefore | OperationFails(applied: bool) | DoneThenStale

  datatype Report = Report(completed: seq<Stage>, failed: Option<Stage>, device: Device)

  function Execute(stages: seq<Stage>, env: nat -> Outcome, k: nat, d: Device): Report
    requires k <= |stages|
    decreases |stages| - k
  {
    if k == |stages| then Report(stages, None, d)
    else
      match env(k)
      case StaleBefore => Report(stages[..k], Some(stages[k]), d)
      case OperationFails(applied) => Report(stages[..k], Some(stages[k]), if applied then Effect(d, stages[k]) else d)
      case DoneThenStale => Report(stages[..k + 1], Some(stages[k]), Effect(d, stages[k]))
      case Done => Execute(stages, env, k + 1, Effect(d, stages[k]))
  }

  // ---- every intermediate state ----

  /** Before every stage the stage is permitted, and no cable ever serves two universes. */
  ghost predicate SafeRun(d: Device, stages: seq<Stage>) {
    && (forall k :: 0 <= k <= |stages| ==> OneUniversePerCable(After(d, stages[..k])))
    && (forall k :: 0 <= k < |stages| ==> Permits(After(d, stages[..k]), stages[k]))
  }

  lemma {:induction false} AfterSplit(d: Device, a: seq<Stage>, b: seq<Stage>)
    ensures After(d, a + b) == After(After(d, a), b)
    decreases |b|
  {
    if b == [] {
      assert a + b == a;
    } else {
      assert (a + b)[..|a + b| - 1] == a + b[..|b| - 1];
      AfterSplit(d, a, b[..|b| - 1]);
    }
  }

  lemma SafeSplit(d: Device, a: seq<Stage>, b: seq<Stage>)
    requires SafeRun(d, a) && SafeRun(After(d, a), b)
    ensures SafeRun(d, a + b)
  {
    forall k | 0 <= k <= |a + b|
      ensures OneUniversePerCable(After(d, (a + b)[..k]))
      ensures k < |a + b| ==> Permits(After(d, (a + b)[..k]), (a + b)[k])
    {
      if k < |a| {
        assert (a + b)[..k] == a[..k];
      } else {
        assert (a + b)[..k] == a + b[..k - |a|];
        AfterSplit(d, a, b[..k - |a|]);
      }
    }
  }

  lemma SafeSnoc(d: Device, stages: seq<Stage>, stage: Stage)
    requires SafeRun(d, stages) && Permits(After(d, stages), stage)
    requires OneUniversePerCable(Effect(After(d, stages), stage))
    ensures SafeRun(d, stages + [stage]) && After(d, stages + [stage]) == Effect(After(d, stages), stage)
  {
    var all := stages + [stage];
    assert all[..|stages|] == stages && all[..|all|] == all;
    assert After(d, all) == Effect(After(d, stages), stage);
    forall k | 0 <= k <= |all| ensures OneUniversePerCable(After(d, all[..k])) {
      if k < |all| { assert all[..k] == stages[..k]; }
    }
    forall k | 0 <= k < |all| ensures Permits(After(d, all[..k]), all[k]) {
      assert all[..k] == stages[..k];
      assert k == |stages| ==> stages[..k] == stages;
    }
  }

  lemma SafeNil(d: Device)
    requires OneUniversePerCable(d)
    ensures SafeRun(d, []) && After(d, []) == d
  {
    var none: seq<Stage> := [];
    assert none[..0] == none;
  }

  lemma {:induction false} StopsPhase(d: Device, cables: seq<Cable>)
    requires OneUniversePerCable(d) && forall c :: c in cables ==> c.universe.Some?
    ensures SafeRun(d, StopStages(cables))
    ensures var t := After(d, StopStages(cables));
      t.bindings == d.bindings && t.network == d.network
      && forall u :: u in t.active <==> u in d.active && !exists c :: c in cables && c.universe == Some(u)
    decreases |cables|
  {
    if cables == [] {
      SafeNil(d);
    } else {
      var n := |cables| - 1;
      var front := cables[..n];
      assert cables == front + [cables[n]];
      StopsPhase(d, front);
      assert StopStages(cables) == StopStages(front) + [StopUsb(cables[n].universe.value)];
      SafeSnoc(d, StopStages(front), StopUsb(cables[n].universe.value));
    }
  }

  lemma {:induction false} ClearsPhase(d: Device, bindings: seq<Binding>)
    requires OneUniversePerCable(d) && forall b :: b in bindings ==> b.universe !in d.active
    ensures SafeRun(d, ClearStages(bindings))
    ensures var t := After(d, ClearStages(bindings));
      t.active == d.active && t.network == d.network
      && (forall u :: u in t.bindings <==> u in d.bindings && !exists b :: b in bindings && b.universe == u)
      && (forall u :: u in t.bindings ==> t.bindings[u] == d.bindings[u])
    decreases |bindings|
  {
    if bindings == [] {
      SafeNil(d);
    } else {
      var n := |bindings| - 1;
      var front := bindings[..n];
      assert bindings == front + [bindings[n]];
      ClearsPhase(d, front);
      assert ClearStages(bindings) == ClearStages(front) + [ClearUsb(bindings[n].universe)];
      SafeSnoc(d, ClearStages(front), ClearUsb(bindings[n].universe));
    }
  }

  ghost predicate Bindable(d: Device, rows: seq<Row>) {
    && (forall row :: row in rows ==> row.port.Some? && row.universe !in d.active && row.universe !in d.bindings)
    && (forall row, v :: row in rows && v in d.bindings ==> !SameCable(d.bindings[v], row.port.value))
    && AllDistinct(rows)
  }

  /** t is d with exactly the given rows bound as well. */
  ghost predicate Binds(d: Device, t: Device, rows: seq<Row>) {
    && t.active == d.active && t.network == d.network
    && (forall u :: u in t.bindings <==> u in d.bindings || Lists(rows, u))
    && (forall u :: u in d.bindings ==> t.bindings[u] == d.bindings[u])
    && (forall row :: row in rows ==> row.universe in t.bindings && Some(t.bindings[row.universe]) == row.port)
  }

  lemma {:induction false} BindsPhase(d: Device, rows: seq<Row>)
    requires OneUniversePerCable(d) && Bindable(d, rows)
    ensures SafeRun(d, BindStages(rows)) && Binds(d, After(d, BindStages(rows)), rows)
    decreases |rows|
  {
    if rows == [] {
      SafeNil(d);
    } else {
      var front, last := rows[..|rows| - 1], rows[|rows| - 1];
      assert rows == front + [last];
      BindablePrefix(d, rows, front, last);
      BindsPhase(d, front);
      assert BindStages(rows) == BindStages(front) + [BindUsb(last.universe, last.port.value)];
      BindsLast(d, front, last);
    }
  }

  lemma BindablePrefix(d: Device, rows: seq<Row>, front: seq<Row>, last: Row)
    requires Bindable(d, rows) && rows == front + [last]
    ensures Bindable(d, front) && forall row :: row in front ==> Distinct(row, last)
    ensures last in rows
  {
    LastIsApart(rows, front, last);
    forall i, j | 0 <= i < j < |front| ensures Distinct(front[i], front[j]) {
      assert rows[i] == front[i] && rows[j] == front[j];
    }
  }

  lemma BindsLast(d: Device, front: seq<Row>, last: Row)
    requires forall row :: row in front ==> row.port.Some?
    requires SafeRun(d, BindStages(front)) && Binds(d, After(d, BindStages(front)), front) && last.port.Some?
    requires last.universe !in d.active && last.universe !in d.bindings
    requires forall v :: v in d.bindings ==> !SameCable(d.bindings[v], last.port.value)
    requires forall row :: row in front ==> Distinct(row, last)
    ensures var stages := BindStages(front) + [BindUsb(last.universe, last.port.value)];
      SafeRun(d, stages) && Binds(d, After(d, stages), front + [last])
  {
    var m := After(d, BindStages(front));
    assert OneUniversePerCable(m) by { assert BindStages(front)[..|BindStages(front)|] == BindStages(front); }
    BindOneMore(d, m, front, last);
    SafeSnoc(d, BindStages(front), BindUsb(last.universe, last.port.value));
    BindsSnoc(d, m, front, last);
  }

  predicate Distinct(a: Row, b: Row) {
    a.port.Some? && b.port.Some? && a.universe != b.universe && !SameCable(a.port.value, b.port.value)
  }

  predicate AllDistinct(rows: seq<Row>) {
    forall i, j :: 0 <= i < j < |rows| ==> Distinct(rows[i], rows[j])
  }

  lemma LastIsApart(rows: seq<Row>, front: seq<Row>, last: Row)
    requires rows == front + [last] && AllDistinct(rows)
    ensures forall row :: row in front ==> Distinct(row, last)
  {
    forall row | row in front ensures Distinct(row, last) {
      var i :| 0 <= i < |front| && front[i] == row;
      assert rows[i] == row && rows[|front|] == last;
    }
  }

  lemma BindsSnoc(d: Device, m: Device, front: seq<Row>, last: Row)
    requires Binds(d, m, front) && last.port.Some? && last.universe !in d.bindings
    requires forall row :: row in front ==> row.universe != last.universe
    ensures Binds(d, Effect(m, BindUsb(last.universe, last.port.value)), front + [last])
  {
    forall u ensures Lists(front + [last], u) <==> Lists(front, u) || u == last.universe {
      if Lists(front, u) {
        var row :| row in front && row.universe == u;
        assert row in front + [last];
      }
      assert last in front + [last];
    }
  }

  lemma SameCableSymmetric(a: Port, b: Port)
    ensures SameCable(a, b) <==> SameCable(b, a)
  {
  }

  lemma BindOneMore(d: Device, m: Device, front: seq<Row>, last: Row)
    requires OneUniversePerCable(m) && Binds(d, m, front) && last.port.Some?
    requires last.universe !in d.active && last.universe !in d.bindings
    requires forall v :: v in d.bindings ==> !SameCable(d.bindings[v], last.port.value)
    requires forall row :: row in front ==> row.port.Some? && Distinct(row, last)
    ensures Permits(m, BindUsb(last.universe, last.port.value))
    ensures OneUniversePerCable(Effect(m, BindUsb(last.universe, last.port.value)))
  {
    forall v | v in m.bindings
      ensures !SameCable(m.bindings[v], last.port.value) && !SameCable(last.port.value, m.bindings[v])
    {
      if v !in d.bindings {
        var row :| row in front && row.universe == v;
        assert Distinct(row, last);
      }
      SameCableSymmetric(m.bindings[v], last.port.value);
    }
  }

  lemma {:induction false} StartsPhase(d: Device, rows: seq<Row>)
    requires OneUniversePerCable(d) && forall row :: row in rows ==> row.universe in d.bindings
    ensures SafeRun(d, StartStages(rows))
    ensures var t := After(d, StartStages(rows));
      t.bindings == d.bindings && t.network == d.network
      && forall u :: u in t.active <==> u in d.active || Lists(rows, u)
    decreases |rows|
  {
    if rows == [] {
      SafeNil(d);
    } else {
      var n := |rows| - 1;
      var front := rows[..n];
      assert rows == front + [rows[n]];
      StartsPhase(d, front);
      assert StartStages(rows) == StartStages(front) + [StartUsb(rows[n].universe)];
      SafeSnoc(d, StartStages(front), StartUsb(rows[n].universe));
    }
  }

  // ---- the plan's stages, phase by phase ----

  ghost predicate Admitted(rows: seq<Row>, status: Status, d: Device) {
    && Faithful(status, d) && ValidRows(rows, status)
    && (forall row :: row in rows && row.port.Some? ==> NeedsRebind(row, status))
  }

  lemma DesiredIsAdmitted(plan: Plan, status: Status)
    ensures forall row :: row in Desired(plan.usb, status) && row.port.Some? ==> NeedsRebind(row, status)
  {
  }

  lemma RowIsUnique(rows: seq<Row>, status: Status, a: Row, b: Row)
    requires ValidRows(rows, status) && a in rows && b in rows && a.universe == b.universe
    ensures a == b
  {
    var i :| 0 <= i < |rows| && rows[i] == a;
    var j :| 0 <= j < |rows| && rows[j] == b;
    assert i == j;
  }

  lemma RowsAreApart(rows: seq<Row>, status: Status, a: Row, b: Row)
    requires ValidRows(rows, status) && a in rows && b in rows && a.universe != b.universe
    ensures Apart(FinalPort(a, status), FinalPort(b, status))
  {
    var i :| 0 <= i < |rows| && rows[i] == a;
    var j :| 0 <= j < |rows| && rows[j] == b;
    assert i != j;
    if j < i {
      assert Apart(FinalPort(b, status), FinalPort(a, status));
      SameCableSymmetric(FinalPort(a, status).value, FinalPort(b, status).value);
    }
  }

  predicate Released(rows: seq<Row>, status: Status, universe: int) {
    exists b :: b in Clears(rows, status) && b.universe == universe
  }

  predicate Stopped(rows: seq<Row>, status: Status, universe: int) {
    exists c :: c in Stops(rows, status) && c.universe == Some(universe)
  }

  /** Whatever is released or rebound has been stopped first. */
  lemma ReleasedIsStopped(rows: seq<Row>, status: Status, d: Device, universe: int)
    requires Faithful(status, d) && universe in d.active
    requires !Lists(rows, universe) || Lists(Rebind(rows, status), universe)
    ensures Stopped(rows, status, universe)
  {
    var c :| c in status.cables && c.universe == Some(universe) && c.active;
    assert MustStop(c, rows, status);
    assert c in Stops(rows, status);
  }

  /** Exactly the removed and the rebound universes lose their binding. */
  lemma ReleasedExactly(rows: seq<Row>, status: Status, d: Device, universe: int)
    requires Faithful(status, d) && universe in d.bindings
    ensures Released(rows, status, universe) <==> !Lists(rows, universe) || Lists(Rebind(rows, status), universe)
  {
    var b := FindBinding(status.bindings, universe).value;
    if !Lists(rows, universe) {
      assert b in Removed(rows, status) && b in Clears(rows, status);
    }
    if Lists(Rebind(rows, status), universe) {
      assert b in OldBindings(Rebind(rows, status), status) && b in Clears(rows, status);
    }
  }

  lemma ClearedUniverses(rows: seq<Row>, status: Status, b: Binding)
    requires b in Clears(rows, status)
    ensures b in status.bindings && (!Lists(rows, b.universe) || Lists(Rebind(rows, status), b.universe))
  {
  }

  /** A universe that keeps its binding keeps the one its row wants. */
  lemma KeptIsWanted(rows: seq<Row>, status: Status, d: Device, universe: int) returns (row: Row)
    requires Admitted(rows, status, d) && universe in d.bindings && !Released(rows, status, universe)
    ensures row in rows && row.universe == universe && row.port.None?
    ensures FinalPort(row, status) == Some(d.bindings[universe])
  {
    ReleasedExactly(rows, status, d, universe);
    row :| row in rows && row.universe == universe;
    assert row.port.Some? ==> row in Rebind(rows, status);
    assert FindBinding(status.bindings, universe).value in status.bindings;
  }

  /** After the stops and clears, the rows to rebind can be bound one after the other. */
  lemma RebindIsBindable(rows: seq<Row>, status: Status, d: Device, m: Device)
    requires Admitted(rows, status, d)
    requires forall u :: u in m.active <==> u in d.active && !Stopped(rows, status, u)
    requires forall u :: u in m.bindings <==> u in d.bindings && !Released(rows, status, u)
    requires forall u :: u in m.bindings ==> m.bindings[u] == d.bindings[u]
    ensures Bindable(m, Rebind(rows, status))
  {
    var rebind := Rebind(rows, status);
    forall row | row in rebind ensures row.universe !in m.active && row.universe !in m.bindings {
      assert Lists(rebind, row.universe);
      if row.universe in d.active { ReleasedIsStopped(rows, status, d, row.universe); }
      if row.universe in d.bindings { ReleasedExactly(rows, status, d, row.universe); }
    }
    forall row, v | row in rebind && v in m.bindings ensures !SameCable(m.bindings[v], row.port.value) {
      var kept := KeptIsWanted(rows, status, d, v);
      if v == row.universe { RowIsUnique(rows, status, kept, row); }
      RowsAreApart(rows, status, kept, row);
    }
    FilterKeepsDistinct(rows, status);
  }

  lemma {:induction false} FilterKeepsApart(p: Row -> bool, rows: seq<Row>)
    requires forall i, j :: 0 <= i < j < |rows| && p(rows[i]) && p(rows[j]) ==> Distinct(rows[i], rows[j])
    ensures AllDistinct(Filter(p, rows))
  {
    if rows != [] {
      var rest := Filter(p, rows[1..]);
      FilterKeepsApart(p, rows[1..]);
      if p(rows[0]) {
        forall j | 0 <= j < |rest| ensures Distinct(rows[0], rest[j]) {
          assert rest[j] in rows[1..];
          var k :| 0 <= k < |rows[1..]| && rows[1..][k] == rest[j];
          assert rows[k + 1] == rest[j];
        }
        ConsKeepsDistinct(rows[0], rest);
      }
    }
  }

  lemma ConsKeepsDistinct(first: Row, rest: seq<Row>)
    requires AllDistinct(rest) && forall j :: 0 <= j < |rest| ==> Distinct(first, rest[j])
    ensures AllDistinct([first] + rest)
  {
    var r := [first] + rest;
    forall i, j | 0 <= i < j < |r| ensures Distinct(r[i], r[j]) {
      assert r[j] == rest[j - 1];
      if i > 0 { assert r[i] == rest[i - 1]; }
    }
  }

  lemma FilterKeepsDistinct(rows: seq<Row>, status: Status)
    requires ValidRows(rows, status)
    ensures AllDistinct(Rebind(rows, status))
  {
    forall i, j | 0 <= i < j < |rows| && NeedsRebind(rows[i], status) && NeedsRebind(rows[j], status)
      ensures Distinct(rows[i], rows[j])
    {
      assert Apart(FinalPort(rows[i], status), FinalPort(rows[j], status));
    }
    FilterKeepsApart((row: Row) => NeedsRebind(row, status), rows);
  }

  // ---- what an apply promises ----

  /** The device after stops, clears and binds, before the network and the starts. */
  lemma BoundAsWanted(rows: seq<Row>, status: Status, d: Device, m: Device, t: Device)
    requires Admitted(rows, status, d)
    requires forall u :: u in m.bindings <==> u in d.bindings && !Released(rows, status, u)
    requires forall u :: u in m.bindings ==> m.bindings[u] == d.bindings[u]
    requires Binds(m, t, Rebind(rows, status))
    ensures forall u :: u in t.bindings <==> Lists(rows, u)
    ensures forall row :: row in rows ==>
              row.universe in t.bindings && Some(t.bindings[row.universe]) == FinalPort(row, status)
  {
    forall row | row in rows
      ensures row.universe in t.bindings && Some(t.bindings[row.universe]) == FinalPort(row, status)
    {
      if row.port.Some? {
        assert row in Rebind(rows, status);
      } else {
        RowWithoutPortKeeps(rows, status, d, row);
      }
    }
    forall u | u in t.bindings ensures Lists(rows, u) {
      if u in m.bindings { ReleasedExactly(rows, status, d, u); }
      else {
        var row :| row in Rebind(rows, status) && row.universe == u;
        assert row in rows;
      }
    }
  }

  lemma RowWithoutPortKeeps(rows: seq<Row>, status: Status, d: Device, row: Row)
    requires Admitted(rows, status, d) && row in rows && row.port.None?
    ensures row.universe in d.bindings && !Released(rows, status, row.universe)
    ensures Some(d.bindings[row.universe]) == FinalPort(row, status)
  {
    var b := FindBinding(status.bindings, row.universe);
    assert b.Some? && b.value in status.bindings;
    ReleasedExactly(rows, status, d, row.universe);
    forall other | other in Rebind(rows, status) ensures other.universe == row.universe ==> other == row {
      if other.universe == row.universe { RowIsUnique(rows, status, row, other); }
    }
  }

  lemma StartedAsWanted(rows: seq<Row>, status: Status, d: Device, universe: int)
    requires Admitted(rows, status, d)
    ensures (universe in d.active && !Stopped(rows, status, universe)) || Lists(Starts(rows, status), universe)
            <==> Enables(rows, universe)
  {
    if Enables(rows, universe) {
      var row :| row in rows && row.universe == universe && row.enabled;
      if !MustStart(row, rows, status) {
        assert forall c :: c in Stops(rows, status) ==> MustStop(c, rows, status);
        assert forall other :: other in rows && other.universe == universe && other.enabled ==> Enables(rows, universe);
      } else {
        assert row in Starts(rows, status);
      }
    } else if universe in d.active {
      var c :| c in status.cables && c.universe == Some(universe) && c.active;
      assert c in Stops(rows, status);
    }
  }

  function Head(rows: seq<Row>, status: Status): seq<Stage> {
    StopStages(Stops(rows, status)) + ClearStages(Clears(rows, status)) + BindStages(Rebind(rows, status))
  }

  lemma HeadIsSafe(rows: seq<Row>, status: Status, d: Device)
    requires Admitted(rows, status, d)
    ensures SafeRun(d, Head(rows, status))
    ensures var t := After(d, Head(rows, status));
      && (forall u :: u in t.active <==> u in d.active && !Stopped(rows, status, u))
      && (forall u :: u in t.bindings <==> Lists(rows, u))
      && (forall row :: row in rows ==>
            row.universe in t.bindings && Some(t.bindings[row.universe]) == FinalPort(row, status))
      && t.network == d.network
  {
    var a, b, c := StopStages(Stops(rows, status)), ClearStages(Clears(rows, status)), BindStages(Rebind(rows, status));
    StopsPhase(d, Stops(rows, status));
    var d1 := After(d, a);
    forall x | x in Clears(rows, status) ensures x.universe !in d1.active {
      ClearedUniverses(rows, status, x);
      if x.universe in d.active { ReleasedIsStopped(rows, status, d, x.universe); }
    }
    ClearsPhase(d1, Clears(rows, status));
    var d2 := After(d1, b);
    RebindIsBindable(rows, status, d, d2);
    BindsPhase(d2, Rebind(rows, status));
    BoundAsWanted(rows, status, d, d2, After(d2, c));
    SafeSplit(d, a, b);
    AfterSplit(d, a, b);
    SafeSplit(d, a + b, c);
    AfterSplit(d, a + b, c);
  }

  /** All mutations in order: safe at every point, and the plan is met at the end. */
  lemma MutationsMeetPlan(rows: seq<Row>, status: Status, plan: Plan, ctx: Context, d: Device)
    requires Admitted(rows, status, d) && ctx.network == d.network
    ensures SafeRun(d, Mutations(rows, status, plan, ctx))
    ensures Meets(After(d, Mutations(rows, status, plan, ctx)), rows, status, plan.network)
  {
    var head, net, start := Head(rows, status), NetworkStages(plan, ctx), StartStages(Starts(rows, status));
    HeadIsSafe(rows, status, d);
    var d1 := After(d, head);
    NetworkPhase(d1, plan, ctx);
    var d2 := After(d1, net);
    StartsPhase(d2, Starts(rows, status));
    SafeSplit(d, head, net);
    AfterSplit(d, head, net);
    SafeSplit(d, head + net, start);
    AfterSplit(d, head + net, start);
    var t := After(d, head + net + start);
    forall u ensures u in t.active <==> Enables(rows, u) { StartedAsWanted(rows, status, d, u); }
  }

  lemma NetworkPhase(d: Device, plan: Plan, ctx: Context)
    requires OneUniversePerCable(d)
    ensures SafeRun(d, NetworkStages(plan, ctx))
    ensures After(d, NetworkStages(plan, ctx)) == if ctx.network != plan.network then d.(network := plan.network) else d
  {
    SafeNil(d);
    if ctx.network != plan.network {
      SafeSnoc(d, [], ApplyNetwork(plan.network));
      assert [] + [ApplyNetwork(plan.network)] == [ApplyNetwork(plan.network)];
    }
  }

  lemma {:induction false} ExecuteStops(stages: seq<Stage>, env: nat -> Outcome, k: nat, d: Device)
    requires k <= |stages|
    ensures var r := Execute(stages, env, k, After(d, stages[..k]));
      && (r.failed.None? ==> r.completed == stages && r.device == After(d, stages))
      && (r.failed.Some? ==> exists n :: k <= n < |stages| && FailedAt(stages, d, r, n))
    decreases |stages| - k
  {
    if k == |stages| {
      assert stages[..k] == stages;
    } else {
      assert stages[..k + 1][..k] == stages[..k] && stages[..k + 1][k] == stages[k];
      if env(k) == Done {
        ExecuteStops(stages, env, k + 1, d);
        assert Effect(After(d, stages[..k]), stages[k]) == After(d, stages[..k + 1]);
      } else {
        assert FailedAt(stages, d, Execute(stages, env, k, After(d, stages[..k])), k);
      }
    }
  }

  /** Stage n failed: what is recorded is a prefix of the plan, and the device is where it says, or one stage on. */
  ghost predicate FailedAt(stages: seq<Stage>, d: Device, r: Report, n: nat)
    requires n < |stages|
  {
    && r.failed == Some(stages[n])
    && (r.completed == stages[..n] || r.completed == stages[..n + 1])
    && (r.device == After(d, stages[..n]) || r.device == After(d, stages[..n + 1]))
    && (r.completed == stages[..n + 1] ==> r.device == After(d, stages[..n + 1]))
  }

  /** The stages an admitted apply runs are safe at every point, and all of them together meet the plan. */
  lemma PlanIsSafeAndMet(plan: Plan, ctx: Context, d: Device)
    requires Decide(plan, ctx).Go? && Faithful(ctx.status.value, d) && ctx.network == d.network
    ensures SafeRun(d, Decide(plan, ctx).stages)
    ensures Meets(After(d, Decide(plan, ctx).stages), Desired(plan.usb, ctx.status.value), ctx.status.value,
                  plan.network)
  {
    var status := ctx.status.value;
    var rows := Desired(plan.usb, status);
    GoMeansAdmitted(plan, ctx, d);
    MutationsMeetPlan(rows, status, plan, ctx, d);
    AroundIsSafe(d, Mutations(rows, status, plan, ctx), if ctx.refreshes then [Refresh] else []);
  }

  lemma GoMeansAdmitted(plan: Plan, ctx: Context, d: Device)
    requires Decide(plan, ctx).Go? && Faithful(ctx.status.value, d)
    ensures var status := ctx.status.value;
      var rows := Desired(plan.usb, status);
      && Admitted(rows, status, d)
      && Decide(plan, ctx).stages ==
         [Authority] + Mutations(rows, status, plan, ctx) + if ctx.refreshes then [Refresh] else []
  {
    DesiredIsAdmitted(plan, ctx.status.value);
  }

  /** Taking authority first and refreshing last change nothing. */
  lemma AroundIsSafe(d: Device, work: seq<Stage>, tail: seq<Stage>)
    requires SafeRun(d, work) && OneUniversePerCable(d) && (tail == [] || tail == [Refresh])
    ensures SafeRun(d, [Authority] + work + tail) && After(d, [Authority] + work + tail) == After(d, work)
  {
    SafeNil(d);
    SafeSnoc(d, [], Authority);
    assert [] + [Authority] == [Authority];
    SafeSplit(d, [Authority], work);
    AfterSplit(d, [Authority], work);
    var m := After(d, [Authority] + work);
    assert work[..|work|] == work;
    SafeNil(m);
    if tail != [] {
      SafeSnoc(m, [], Refresh);
      assert [] + [Refresh] == [Refresh];
    }
    SafeSplit(d, [Authority] + work, tail);
    AfterSplit(d, [Authority] + work, tail);
  }

  /**
   If every stage succeeds the device ends equal to the plan: exactly the listed universes are
   bound, each to the device its row asks for, exactly the enabled ones run.
   */
  lemma SuccessMeetsPlan(plan: Plan, ctx: Context, d: Device, env: nat -> Outcome)
    requires Decide(plan, ctx).Go? && Faithful(ctx.status.value, d) && ctx.network == d.network
    requires Execute(Decide(plan, ctx).stages, env, 0, d).failed.None?
    ensures var t := Execute(Decide(plan, ctx).stages, env, 0, d).device;
      && (forall u :: u in t.bindings <==> Lists(plan.usb, u))
      && (forall row :: row in plan.usb && row.port.Some? ==>
            row.universe in t.bindings && t.bindings[row.universe] == row.port.value)
      && (forall row :: row in plan.usb && row.port.None? ==>
            row.universe in t.bindings && row.universe in d.bindings
              && t.bindings[row.universe] == d.bindings[row.universe])
      && (forall u :: u in t.active <==> Enables(plan.usb, u))
      && t.network == plan.network
  {
    var stages := Decide(plan, ctx).stages;
    assert stages[..0] == [];
    ExecuteStops(stages, env, 0, d);
    PlanIsSafeAndMet(plan, ctx, d);
    MeetsOriginal(plan, ctx.status.value, d, After(d, stages));
  }

  lemma DesiredListsTheSame(rows: seq<Row>, status: Status, u: int)
    ensures Lists(Desired(rows, status), u) <==> Lists(rows, u)
    ensures Enables(Desired(rows, status), u) <==> Enables(rows, u)
  {
    forall i | 0 <= i < |rows| ensures Desired(rows, status)[i] in Desired(rows, status) && rows[i] in rows { }
  }

  lemma MeetsOriginal(plan: Plan, status: Status, d: Device, t: Device)
    requires Faithful(status, d) && Meets(t, Desired(plan.usb, status), status, plan.network)
    ensures forall u :: u in t.bindings <==> Lists(plan.usb, u)
    ensures forall row :: row in plan.usb && row.port.Some? ==>
              row.universe in t.bindings && t.bindings[row.universe] == row.port.value
    ensures forall row :: row in plan.usb && row.port.None? ==>
              row.universe in t.bindings && row.universe in d.bindings
                && t.bindings[row.universe] == d.bindings[row.universe]
    ensures forall u :: u in t.active <==> Enables(plan.usb, u)
  {
    forall u ensures u in t.bindings <==> Lists(plan.usb, u) { DesiredListsTheSame(plan.usb, status, u); }
    forall u ensures u in t.active <==> Enables(plan.usb, u) { DesiredListsTheSame(plan.usb, status, u); }
    forall row | row in plan.usb
      ensures row.universe in t.bindings && Some(t.bindings[row.universe]) == FinalPort(Admit(row, status), status)
    {
      var i :| 0 <= i < |plan.usb| && plan.usb[i] == row;
      assert Desired(plan.usb, status)[i] in Desired(plan.usb, status);
    }
  }

  /** On failure the completed stages are a prefix of the planned ones, and every state reached was safe. */
  lemma FailureLeavesAPrefix(plan: Plan, ctx: Context, d: Device, env: nat -> Outcome)
    requires Decide(plan, ctx).Go? && Faithful(ctx.status.value, d) && ctx.network == d.network
    requires Execute(Decide(plan, ctx).stages, env, 0, d).failed.Some?
    ensures var stages := Decide(plan, ctx).stages;
      var r := Execute(stages, env, 0, d);
      && (exists n :: 0 <= n < |stages| && FailedAt(stages, d, r, n))
      && OneUniversePerCable(r.device)
  {
    var stages := Decide(plan, ctx).stages;
    assert stages[..0] == [];
    ExecuteStops(stages, env, 0, d);
    PlanIsSafeAndMet(plan, ctx, d);
    var r := Execute(stages, env, 0, d);
    var n :| 0 <= n < |stages| && FailedAt(stages, d, r, n);
  }

  predicate NoWork(rows: seq<Row>, status: Status, plan: Plan, ctx: Context) {
    Stops(rows, status) == [] && Rebind(rows, status) == [] && Removed(rows, status) == []
    && Starts(rows, status) == [] && ctx.network == plan.network
  }

  lemma NothingMeansNoWork(plan: Plan, ctx: Context)
    ensures var d := Decide(plan, ctx);
      && (d.Go? ==> !NoWork(Desired(plan.usb, ctx.status.value), ctx.status.value, plan, ctx))
      && (d.Nothing? ==> NoWork(Desired(plan.usb, ctx.status.value), ctx.status.value, plan, ctx)
                         && ValidRows(Desired(plan.usb, ctx.status.value), ctx.status.value))
    requires ctx.status.Some?
  {
  }

  /** A plan with nothing to do is already met. */
  lemma NothingToDoIsMet(plan: Plan, ctx: Context, d: Device)
    requires Decide(plan, ctx).Nothing? && Faithful(ctx.status.value, d) && ctx.network == d.network
    ensures Meets(d, Desired(plan.usb, ctx.status.value), ctx.status.value, plan.network)
  {
    NothingMeansNoWork(plan, ctx);
    DesiredIsAdmitted(plan, ctx.status.value);
    NoWorkIsMet(Desired(plan.usb, ctx.status.value), ctx.status.value, plan, ctx, d);
  }

  lemma NoWorkIsMet(rows: seq<Row>, status: Status, plan: Plan, ctx: Context, d: Device)
    requires Admitted(rows, status, d) && ctx.network == d.network && NoWork(rows, status, plan, ctx)
    ensures Meets(d, rows, status, plan.network)
  {
    MutationsMeetPlan(rows, status, plan, ctx, d);
    assert Mutations(rows, status, plan, ctx) == [];
  }

  /** Re-applying a plan to a device that meets it runs no stage at all. */
  lemma ReapplyRunsNothing(plan: Plan, before: Status, ctx: Context, t: Device)
    requires Meets(t, Desired(plan.usb, before), before, plan.network)
    requires ctx.status.Some? && Faithful(ctx.status.value, t) && ctx.network == t.network
    ensures !Decide(plan, ctx).Go?
  {
    var status := ctx.status.value;
    var rows := Desired(plan.usb, status);
    forall row | row in rows ensures row.port.None? {
      var i :| 0 <= i < |rows| && rows[i] == row;
      MetPortIsBound(plan, before, status, t, i);
    }
    MemberOrEmpty(Rebind(rows, status));
    forall u ensures (u in t.bindings <==> Lists(rows, u)) && (u in t.active <==> Enables(rows, u)) {
      DesiredListsTheSame(plan.usb, before, u);
      DesiredListsTheSame(plan.usb, status, u);
    }
    MetNeedsNothing(rows, status, t);
    NothingMeansNoWork(plan, ctx);
  }

  /** A cable no row lists has shut down, and is fault-free and drained unless the blackout is engaged. */
  predicate Idle(c: Cable, blackout: bool) {
    c.shutdownCompleted && (c.faulted || c.liveFrameQueued ==> blackout)
  }

  /** What a re-apply still checks: the project, the reading, and the cables of universes the plan does not list. */
  predicate Rechecked(plan: Plan, ctx: Context) {
    && ctx.current && ctx.status.Some? && !ctx.stale && !ctx.legacyActive && !ctx.otherwiseRefused
    && forall c :: c in ctx.status.value.cables && c.universe.Some? && !Lists(plan.usb, c.universe.value) ==>
         Idle(c, ctx.blackout)
  }

  lemma FindRowFinds(rows: seq<Row>, universe: int)
    ensures FindRow(rows, universe).Some? <==> Lists(rows, universe)
    ensures FindRow(rows, universe).Some? ==>
              FindRow(rows, universe).value in rows && FindRow(rows, universe).value.universe == universe
  {
    if rows != [] {
      FindRowFinds(rows[1..], universe);
      assert forall row :: row in rows ==> row == rows[0] || row in rows[1..];
    }
  }

  /** On a device that meets the plan every row keeps its port, so the rows are as valid as they were. */
  lemma MetRowsStayValid(plan: Plan, before: Status, status: Status, t: Device)
    requires Meets(t, Desired(plan.usb, before), before, plan.network) && Faithful(status, t)
    requires ValidRows(Desired(plan.usb, before), before)
    ensures ValidRows(Desired(plan.usb, status), status)
    ensures forall i :: 0 <= i < |plan.usb| ==> Desired(plan.usb, status)[i].port.None?
  {
    var now, was := Desired(plan.usb, status), Desired(plan.usb, before);
    forall i | 0 <= i < |plan.usb| ensures now[i].port.None? && FinalPort(now[i], status) == FinalPort(was[i], before) {
      MetPortIsBound(plan, before, status, t, i);
      assert was[i] in was;
      assert FindBinding(status.bindings, now[i].universe).value in status.bindings;
    }
  }

  lemma MetCableAllowed(plan: Plan, status: Status, t: Device, c: Cable, blackout: bool)
    requires Faithful(status, t) && c in status.cables && c.universe.Some?
    requires forall u :: u in t.active <==> Enables(plan.usb, u)
    requires forall i :: 0 <= i < |plan.usb| ==> Desired(plan.usb, status)[i].port.None?
    requires ValidRows(Desired(plan.usb, status), status)
    ensures CableAllows(c, Desired(plan.usb, status), blackout)
            <==> Lists(plan.usb, c.universe.value) || Idle(c, blackout)
  {
    var rows, u := Desired(plan.usb, status), c.universe.value;
    FindRowFinds(rows, u);
    DesiredListsTheSame(plan.usb, status, u);
    if c.active {
      assert Running(status.cables, u) && u in t.active && Enables(rows, u);
      var row :| row in rows && row.universe == u && row.enabled;
      assert FindRow(rows, u).Some?;
      RowIsUnique(rows, status, row, FindRow(rows, u).value);
    }
    if FindRow(rows, u).Some? {
      var i :| 0 <= i < |rows| && rows[i] == FindRow(rows, u).value;
      assert rows[i].port.None?;
    }
  }

  /**
   Re-applying an admitted plan to a device that meets it decides that there is nothing to do if and only if
   the recheck passes; otherwise it is rejected, and never does it run a stage.
   */
  lemma ReapplyDecides(plan: Plan, before: Status, ctx: Context, t: Device)
    requires ValidRows(Desired(plan.usb, before), before) && Meets(t, Desired(plan.usb, before), before, plan.network)
    requires ctx.status.Some? && Faithful(ctx.status.value, t) && ctx.network == t.network
    ensures Decide(plan, ctx).Nothing? <==> Rechecked(plan, ctx)
    ensures Decide(plan, ctx).Reject? <==> !Rechecked(plan, ctx)
  {
    var status := ctx.status.value;
    ReapplyRunsNothing(plan, before, ctx, t);
    MetRowsStayValid(plan, before, status, t);
    MetActiveAsPlanned(plan, before, t);
    forall c | c in status.cables && c.universe.Some?
      ensures CableAllows(c, Desired(plan.usb, status), ctx.blackout)
              <==> Lists(plan.usb, c.universe.value) || Idle(c, ctx.blackout)
    {
      MetCableAllowed(plan, status, t, c, ctx.blackout);
    }
    MetDecision(plan, before, ctx, t);
  }

  lemma MetActiveAsPlanned(plan: Plan, before: Status, t: Device)
    requires Meets(t, Desired(plan.usb, before), before, plan.network)
    ensures forall u :: u in t.active <==> Enables(plan.usb, u)
    ensures forall u :: u in t.bindings <==> Lists(plan.usb, u)
  {
    forall u ensures (u in t.active <==> Enables(plan.usb, u)) && (u in t.bindings <==> Lists(plan.usb, u)) {
      DesiredListsTheSame(plan.usb, before, u);
    }
  }

  lemma MetDecision(plan: Plan, before: Status, ctx: Context, t: Device)
    requires Meets(t, Desired(plan.usb, before), before, plan.network)
    requires ctx.status.Some? && Faithful(ctx.status.value, t) && ctx.network == t.network
    requires forall i :: 0 <= i < |plan.usb| ==> Desired(plan.usb, ctx.status.value)[i].port.None?
    ensures Decide(plan, ctx).Nothing? <==>
      ctx.current && !ctx.stale && !ctx.legacyActive && !ctx.otherwiseRefused
      && ValidPlan(Desired(plan.usb, ctx.status.value), ctx.status.value, ctx.blackout)
  {
    var status := ctx.status.value;
    var rows := Desired(plan.usb, status);
    forall row | row in rows ensures row.port.None? {
      var i :| 0 <= i < |rows| && rows[i] == row;
    }
    MemberOrEmpty(Rebind(rows, status));
    MetActiveAsPlanned(plan, before, t);
    forall u ensures (u in t.bindings <==> Lists(rows, u)) && (u in t.active <==> Enables(rows, u)) {
      DesiredListsTheSame(plan.usb, status, u);
    }
    MetNeedsNothing(rows, status, t);
    assert Mutating(rows, status) == [];
  }

  lemma MetPortIsBound(plan: Plan, before: Status, status: Status, t: Device, i: nat)
    requires i < |plan.usb| && Meets(t, Desired(plan.usb, before), before, plan.network) && Faithful(status, t)
    ensures Desired(plan.usb, status)[i].port.None?
  {
    var row := plan.usb[i];
    assert Desired(plan.usb, before)[i] in Desired(plan.usb, before);
    assert row.universe in t.bindings;
    assert FindBinding(status.bindings, row.universe).value in status.bindings;
  }

  lemma MetNeedsNothing(rows: seq<Row>, status: Status, t: Device)
    requires Faithful(status, t) && Rebind(rows, status) == []
    requires forall u :: (u in t.bindings <==> Lists(rows, u)) && (u in t.active <==> Enables(rows, u))
    ensures Removed(rows, status) == [] && Stops(rows, status) == [] && Starts(rows, status) == []
  {
    forall b | b in status.bindings ensures Lists(rows, b.universe) {
      assert b.universe in t.bindings;
    }
    forall c | c in status.cables && c.universe.Some? && c.active ensures Enables(rows, c.universe.value) {
      assert Running(status.cables, c.universe.value) && c.universe.value in t.active;
    }
    forall row | row in rows && row.enabled ensures Running(status.cables, row.universe) {
      assert Enables(rows, row.universe) && row.universe in t.active;
    }
    MemberOrEmpty(Removed(rows, status));
    MemberOrEmpty(Stops(rows, status));
    MemberOrEmpty(Starts(rows, status));
  }

  /** Nothing running is ever stopped without the safety blackout. */
  lemma StoppingNeedsBlackout(plan: Plan, ctx: Context, u: int)
    requires Decide(plan, ctx).Go? && StopUsb(u) in Decide(plan, ctx).stages
    ensures ctx.blackout
  {
    var status := ctx.status.value;
    var rows := Desired(plan.usb, status);
    assert Decide(plan, ctx).stages
           == [Authority] + Mutations(rows, status, plan, ctx) + if ctx.refreshes then [Refresh] else [];
    OnlyStopStagesStop(rows, status, plan, ctx, u);
  }

  lemma OnlyStopStagesStop(rows: seq<Row>, status: Status, plan: Plan, ctx: Context, u: int)
    ensures StopUsb(u) in Mutations(rows, status, plan, ctx) ==> Stops(rows, status) != []
  {
    var stops := StopStages(Stops(rows, status));
    assert StopUsb(u) in Mutations(rows, status, plan, ctx) ==> StopUsb(u) in stops;
  }

  /**
   Preflight: a universe about to be changed whose cable is not going to be stopped has finished
   its previous shutdown, recovers a fault only under blackout, and is started on its old binding
   only if that device is present.
   */
  lemma OnlySettledCablesChange(plan: Plan, ctx: Context, universe: int)
    requires Decide(plan, ctx).Go?
    ensures var status := ctx.status.value;
      var rows := Desired(plan.usb, status);
      universe in Mutating(rows, status) ==>
        && (var cable := FindCable(status.cables, universe);
            cable.Some? && !Stopped(rows, status, universe) ==>
              && cable.value.shutdownCompleted && !cable.value.liveFrameQueued
              && (cable.value.zeroFrameQueued ==> cable.value.zeroFrameWritten || cable.value.faulted)
              && (cable.value.faulted ==> ctx.blackout))
        && (Lists(Starts(rows, status), universe) && !Lists(Rebind(rows, status), universe) ==>
              var b := FindBinding(status.bindings, universe); b.Some? && b.value.present)
  {
    var status := ctx.status.value;
    var rows := Desired(plan.usb, status);
    if universe in Mutating(rows, status) {
      assert Obstacle(universe, rows, status, ctx.blackout).None?;
    }
  }

  // ---- the stage runner ----

  lemma Regroup(p: seq<Stage>, a: seq<Stage>, b: seq<Stage>, c: seq<Stage>, d: seq<Stage>, e: seq<Stage>, q: seq<Stage>)
    ensures p + (a + b + c + d + e) + q == [] + (p + (a + (b + (c + (d + (e + q))))))
    ensures p + (a + b + c + d + e) + q == p + a + b + c + d + e + q
  {
    assert a + b + c + d + e + q == a + (b + (c + (d + (e + q))));
  }

  /** The runner's variables: the stage under way, what has completed, and what it acts on. */
  class TableApply {
    var completed: seq<Stage>
    var failed: Option<Stage>
    var device: Device
    var rejection: Option<Rejection>
    const env: nat -> Outcome

    constructor (env: nat -> Outcome, device: Device)
      ensures completed == [] && failed.None? && rejection.None?
      ensures this.device == device && this.env == env
    {
      this.env, this.device := env, device;
      completed, failed, rejection := [], None, None;
    }

    ghost function Record(): Report
      reads this
    {
      Report(completed, failed, device)
    }

    /** The stages up to here are done, and the rest of the plan will be executed from here. */
    ghost predicate Reached(stages: seq<Stage>, start: Device, k: nat)
      requires k <= |stages|
      reads this
    {
      if failed.Some? then Record() == Execute(stages, env, 0, start)
      else completed == stages[..k] && Execute(stages, env, k, device) == Execute(stages, env, 0, start)
    }

    /** One stage: current(), the operation, completed.push, current(). */
    method Run(stage: Stage, ghost stages: seq<Stage>, ghost start: Device)
      requires failed.None? && |completed| < |stages| && stages[|completed|] == stage
      requires Reached(stages, start, |completed|)
      modifies `completed, `failed, `device
      ensures Reached(stages, start, old(|completed|) + 1)
    {
      var outcome := env(|completed|);
      ghost var k := |completed|;
      match outcome {
        case StaleBefore =>
          failed := Some(stage);
        case OperationFails(applied) =>
          failed := Some(stage);
          if applied { device := Effect(device, stage); }
        case DoneThenStale =>
          device := Effect(device, stage);
          completed := completed + [stage];
          failed := Some(stage);
        case Done =>
          device := Effect(device, stage);
          completed := completed + [stage];
      }
    }

    /** One of the loops over a stage list, which the first failure leaves. */
    method RunAll(list: seq<Stage>, ghost pre: seq<Stage>, ghost rest: seq<Stage>, ghost start: Device)
      requires Reached(pre + (list + rest), start, |pre|)
      modifies `completed, `failed, `device
      ensures Reached((pre + list) + rest, start, |pre + list|)
    {
      ghost var stages := pre + (list + rest);
      assert stages == (pre + list) + rest;
      for i := 0 to |list|
        invariant Reached(stages, start, |pre| + i)
      {
        if failed.Some? {
          return;
        }
        assert stages[|pre| + i] == list[i];
        Run(list[i], stages, start);
      }
    }

    /** The loops of the source, one after the other. */
    method RunInOrder(stops: seq<Stage>, clears: seq<Stage>, binds: seq<Stage>, net: seq<Stage>, starts: seq<Stage>,
                      ghost pre: seq<Stage>, ghost post: seq<Stage>, ghost start: Device)
      requires Reached(pre + (stops + (clears + (binds + (net + (starts + post))))), start, |pre|)
      modifies `completed, `failed, `device
      ensures Reached(pre + stops + clears + binds + net + starts + post, start,
                      |pre + stops + clears + binds + net + starts|)
    {
      RunAll(stops, pre, clears + (binds + (net + (starts + post))), start);
      RunAll(clears, pre + stops, binds + (net + (starts + post)), start);
      RunAll(binds, pre + stops + clears, net + (starts + post), start);
      RunAll(net, pre + stops + clears + binds, starts + post, start);
      RunAll(starts, pre + stops + clears + binds + net, post, start);
    }

    /** The whole apply: a rejection or an empty plan runs nothing, otherwise the stages run in order. */
    method Apply(plan: Plan, ctx: Context)
      requires completed == [] && failed.None? && rejection.None?
      modifies this
      ensures var decision := Decide(plan, ctx);
        match decision
        case Reject(reason) => rejection == Some(reason) && Record() == old(Record())
        case Nothing => rejection.None? && Record() == old(Record())
        case Go(stages) => rejection.None? && Record() == Execute(stages, env, 0, old(device))
    {
      var decision := Decide(plan, ctx);
      if decision.Reject? {
        rejection := Some(decision.reason);
        return;
      }
      if decision.Nothing? {
        return;
      }
      RunPlan(plan, ctx);
    }

    /** The loops over the stage lists of an accepted plan. */
    method RunPlan(plan: Plan, ctx: Context)
      requires completed == [] && failed.None? && Decide(plan, ctx).Go?
      modifies `completed, `failed, `device
      ensures Record() == Execute(Decide(plan, ctx).stages, env, 0, old(device))
    {
      ghost var stages, start := Decide(plan, ctx).stages, device;
      var status := ctx.status.value;
      var rows := Desired(plan.usb, status);
      var stops, clears := StopStages(Stops(rows, status)), ClearStages(Clears(rows, status));
      var binds, starts := BindStages(Rebind(rows, status)), StartStages(Starts(rows, status));
      var net := NetworkStages(plan, ctx);
      var last := if ctx.refreshes then [Refresh] else [];
      Regroup([Authority], stops, clears, binds, net, starts, last);
      RunAll([Authority], [], stops + (clears + (binds + (net + (starts + last)))), start);
      assert [] + [Authority] == [Authority];
      RunInOrder(stops, clears, binds, net, starts, [Authority], last, start);
      assert last + [] == last;
      RunAll(last, [Authority] + stops + clears + binds + net + starts, [], start);
      assert stages + [] == stages && stages[..|stages|] == stages;
    }
  }
}
