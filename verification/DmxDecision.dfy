/**
 When an apply of app/src/applyDmxUniverseTable.ts is accepted, refused or found to have nothing to do, and
 which stages an accepted one has, in terms of what its caller sees: the declared plan and the context.
 */
module DmxDecision {
  import opened Prelude
  import opened DmxApply

  // ---- what the plan asks of the device ----

  /** The row asks for another cable than the one its universe is bound to. */
  predicate Rebinds(row: Row, status: Status) {
    row.port.Some? &&
    var bound := FindBinding(status.bindings, row.universe);
    bound.None? || bound.value.identity != row.port.value
  }

  predicate RebindsAt(rows: seq<Row>, status: Status, u: int) {
    exists row :: row in rows && row.universe == u && Rebinds(row, status)
  }

  predicate EnablesAt(rows: seq<Row>, u: int) { exists row :: row in rows && row.universe == u && row.enabled }

  predicate BoundAt(status: Status, u: int) { exists b :: b in status.bindings && b.universe == u }

  /** A running cable whose universe is dropped, disabled or bound anew. */
  predicate Disturbs(c: Cable, rows: seq<Row>, status: Status) {
    c.active && c.universe.Some? && (!EnablesAt(rows, c.universe.value) || RebindsAt(rows, status, c.universe.value))
  }

  predicate Stopping(rows: seq<Row>, status: Status, u: int) {
    exists c :: c in status.cables && c.universe == Some(u) && Disturbs(c, rows, status)
  }

  predicate Removes(rows: seq<Row>, status: Status, u: int) { BoundAt(status, u) && !Lists(rows, u) }

  predicate Begins(rows: seq<Row>, status: Status, u: int) {
    exists row :: row in rows && row.universe == u && row.enabled
                  && (Rebinds(row, status) || !Running(status.cables, u))
  }

  /** The universe is bound anew, removed or started. */
  predicate Changes(rows: seq<Row>, status: Status, u: int) {
    RebindsAt(rows, status, u) || Removes(rows, status, u) || Begins(rows, status, u)
  }

  // ---- when it may be done ----

  /** The cable the row will have. */
  function PortOf(row: Row, status: Status): Option<Port> {
    if row.port.Some? then row.port
    else
      var bound := FindBinding(status.bindings, row.universe);
      if bound.Some? then Some(bound.value.identity) else None
  }

  /** A cable that leaves its universe has stopped or is running, and does so under blackout if anything is live. */
  predicate MayLeave(c: Cable, rows: seq<Row>, status: Status, blackout: bool) {
    c.universe.Some? && (!Lists(rows, c.universe.value) || (c.active && !EnablesAt(rows, c.universe.value))
                         || RebindsAt(rows, status, c.universe.value)) ==>
      (c.active || c.faulted || c.liveFrameQueued ==> blackout) && (c.active || c.shutdownCompleted)
  }

  /** At most four distinct universes, each with a cable of its own, and every cable that leaves free to. */
  predicate Admissible(rows: seq<Row>, status: Status, blackout: bool) {
    && |rows| <= 4
    && (forall i :: 0 <= i < |rows| ==> 0 <= rows[i].universe <= 32767 && PortOf(rows[i], status).Some?)
    && (forall i, j :: 0 <= i < j < |rows| ==> rows[i].universe != rows[j].universe)
    && (forall i, j :: 0 <= i < j < |rows| ==> Apart(PortOf(rows[i], status), PortOf(rows[j], status)))
    && (forall c :: c in status.cables ==> MayLeave(c, rows, status, blackout))
  }

  /** The cable of a changing universe, not stopped by the apply itself, is still busy. */
  predicate Busy(rows: seq<Row>, status: Status, u: int) {
    var cable := FindCable(status.cables, u);
    cable.Some? && !Stopping(rows, status, u) &&
    (!cable.value.shutdownCompleted || cable.value.liveFrameQueued
     || (cable.value.zeroFrameQueued && !cable.value.zeroFrameWritten && !cable.value.faulted))
  }

  predicate Broken(rows: seq<Row>, status: Status, u: int) {
    var cable := FindCable(status.cables, u);
    cable.Some? && !Stopping(rows, status, u) && cable.value.faulted
  }

  /** It is to run on the cable it has, and that cable is not there. */
  predicate Missing(rows: seq<Row>, status: Status, u: int) {
    Begins(rows, status, u) && !RebindsAt(rows, status, u) &&
    var bound := FindBinding(status.bindings, u);
    bound.None? || !bound.value.present
  }

  predicate Ready(rows: seq<Row>, status: Status, u: int, blackout: bool) {
    !Busy(rows, status, u) && (Broken(rows, status, u) ==> blackout) && !Missing(rows, status, u)
  }

  /** Something differs between the device and the plan. */
  ghost predicate Differs(plan: Plan, status: Status, network: Network) {
    || (exists u :: Changes(plan.usb, status, u))
    || (exists c :: c in status.cables && Disturbs(c, plan.usb, status))
    || network != plan.network
  }

  /** The reading can be acted on and the plan is a valid one for it. */
  predicate Accepted(plan: Plan, ctx: Context) {
    && ctx.current && ctx.status.Some? && !ctx.stale && !ctx.legacyActive && !ctx.otherwiseRefused
    && Admissible(plan.usb, ctx.status.value, ctx.blackout)
  }

  ghost predicate AllReady(plan: Plan, ctx: Context)
    requires ctx.status.Some?
  {
    forall u :: Changes(plan.usb, ctx.status.value, u) ==> Ready(plan.usb, ctx.status.value, u, ctx.blackout)
  }

  // ---- the plan and its admitted rows ----

  lemma AdmittedRow(rows: seq<Row>, status: Status, i: nat)
    requires i < |rows|
    ensures var d := Desired(rows, status)[i];
      && d.universe == rows[i].universe && d.enabled == rows[i].enabled
      && (d.port.Some? <==> Rebinds(rows[i], status)) && (d.port.Some? <==> NeedsRebind(d, status))
      && (d.port.Some? ==> d.port == rows[i].port)
      && FinalPort(d, status) == PortOf(rows[i], status)
  {
  }

  lemma AdmittedLists(rows: seq<Row>, status: Status, u: int)
    ensures var d := Desired(rows, status);
      && (Lists(d, u) <==> Lists(rows, u)) && (Enables(d, u) <==> EnablesAt(rows, u))
      && (Lists(Rebind(d, status), u) <==> RebindsAt(rows, status, u))
  {
    DesiredListsTheSame(rows, status, u);
    var d := Desired(rows, status);
    forall i | 0 <= i < |rows| ensures d[i] in d && rows[i] in rows { AdmittedRow(rows, status, i); }
    RebindListed(rows, status, u);
  }

  lemma RebindListed(rows: seq<Row>, status: Status, u: int)
    ensures Lists(Rebind(Desired(rows, status), status), u) <==> RebindsAt(rows, status, u)
  {
    var d := Desired(rows, status);
    if RebindsAt(rows, status, u) {
      var row :| row in rows && row.universe == u && Rebinds(row, status);
      var i :| 0 <= i < |rows| && rows[i] == row;
      AdmittedRow(rows, status, i);
      assert d[i] in Rebind(d, status);
    }
    if Lists(Rebind(d, status), u) {
      var row :| row in Rebind(d, status) && row.universe == u;
      var i :| 0 <= i < |d| && d[i] == row;
      AdmittedRow(rows, status, i);
      assert rows[i] in rows;
    }
  }

  lemma AdmittedStop(rows: seq<Row>, status: Status, c: Cable)
    ensures MustStop(c, Desired(rows, status), status) <==> Disturbs(c, rows, status)
  {
    if c.universe.Some? { AdmittedLists(rows, status, c.universe.value); }
  }

  lemma AdmittedStopping(rows: seq<Row>, status: Status, u: int)
    ensures (exists c :: c in Stops(Desired(rows, status), status) && c.universe == Some(u))
            <==> Stopping(rows, status, u)
  {
    forall c | c in status.cables
      ensures c in Stops(Desired(rows, status), status) <==> Disturbs(c, rows, status)
    {
      AdmittedStop(rows, status, c);
    }
  }

  lemma AdmittedStart(rows: seq<Row>, status: Status, u: int)
    requires Distinct(rows)
    ensures Lists(Starts(Desired(rows, status), status), u) <==> Begins(rows, status, u)
  {
    var d := Desired(rows, status);
    RebindListed(rows, status, u);
    if Begins(rows, status, u) {
      var row :| row in rows && row.universe == u && row.enabled
                 && (Rebinds(row, status) || !Running(status.cables, u));
      var i :| 0 <= i < |rows| && rows[i] == row;
      AdmittedRow(rows, status, i);
      assert d[i] in Starts(d, status);
    }
    if Lists(Starts(d, status), u) {
      var row :| row in Starts(d, status) && row.universe == u;
      var i :| 0 <= i < |d| && d[i] == row;
      AdmittedRow(rows, status, i);
      assert rows[i] in rows;
      StartRebinds(rows, status, i);
    }
  }

  predicate Distinct(rows: seq<Row>) {
    forall i, j :: 0 <= i < j < |rows| ==> rows[i].universe != rows[j].universe
  }

  lemma StartRebinds(rows: seq<Row>, status: Status, i: nat)
    requires Distinct(rows) && i < |rows|
    ensures RebindsAt(rows, status, rows[i].universe) ==> Rebinds(rows[i], status)
  {
    if RebindsAt(rows, status, rows[i].universe) {
      var row :| row in rows && row.universe == rows[i].universe && Rebinds(row, status);
      var j :| 0 <= j < |rows| && rows[j] == row;
      assert j == i;
    }
  }

  lemma AdmittedChange(rows: seq<Row>, status: Status, u: int)
    requires Distinct(rows)
    ensures u in Mutating(Desired(rows, status), status) <==> Changes(rows, status, u)
  {
    var d := Desired(rows, status);
    RebindListed(rows, status, u);
    AdmittedStart(rows, status, u);
    AdmittedRemoved(rows, status, u);
  }

  lemma AdmittedRemoved(rows: seq<Row>, status: Status, u: int)
    ensures u in BindingUniverses(Removed(Desired(rows, status), status)) <==> Removes(rows, status, u)
  {
    var removed := Removed(Desired(rows, status), status);
    AdmittedLists(rows, status, u);
    if u in BindingUniverses(removed) {
      var i :| 0 <= i < |removed| && BindingUniverses(removed)[i] == u;
      assert removed[i] in removed;
    }
    if Removes(rows, status, u) {
      var b :| b in status.bindings && b.universe == u;
      assert b in removed;
      var i :| 0 <= i < |removed| && removed[i] == b;
      assert BindingUniverses(removed)[i] == u;
    }
  }

  // ---- a plan is valid exactly if it is admissible ----

  lemma AdmittedRowsValid(rows: seq<Row>, status: Status)
    ensures ValidRows(Desired(rows, status), status) <==>
      && |rows| <= 4
      && (forall i :: 0 <= i < |rows| ==> 0 <= rows[i].universe <= 32767 && PortOf(rows[i], status).Some?)
      && Distinct(rows)
      && (forall i, j :: 0 <= i < j < |rows| ==> Apart(PortOf(rows[i], status), PortOf(rows[j], status)))
  {
    forall i: nat | i < |rows|
      ensures var d := Desired(rows, status);
        d[i].universe == rows[i].universe && FinalPort(d[i], status) == PortOf(rows[i], status)
    {
      AdmittedRow(rows, status, i);
    }
  }

  lemma AdmittedCable(rows: seq<Row>, status: Status, c: Cable, blackout: bool)
    requires Distinct(rows)
    ensures CableAllows(c, Desired(rows, status), blackout) <==> MayLeave(c, rows, status, blackout)
  {
    if c.universe.Some? {
      var u, d := c.universe.value, Desired(rows, status);
      AdmittedLists(rows, status, u);
      FindRowFinds(d, u);
      if Lists(rows, u) {
        var row := FindRow(d, u).value;
        var i :| 0 <= i < |d| && d[i] == row;
        AdmittedRow(rows, status, i);
        OnlyRow(rows, status, i);
      }
    }
  }

  lemma OnlyRow(rows: seq<Row>, status: Status, i: nat)
    requires Distinct(rows) && i < |rows|
    ensures EnablesAt(rows, rows[i].universe) <==> rows[i].enabled
    ensures RebindsAt(rows, status, rows[i].universe) <==> Rebinds(rows[i], status)
  {
    assert rows[i] in rows;
    StartRebinds(rows, status, i);
    if EnablesAt(rows, rows[i].universe) {
      var row :| row in rows && row.universe == rows[i].universe && row.enabled;
      var j :| 0 <= j < |rows| && rows[j] == row;
      assert j == i;
    }
  }

  lemma ValidIffAdmissible(rows: seq<Row>, status: Status, blackout: bool)
    ensures ValidPlan(Desired(rows, status), status, blackout) <==> Admissible(rows, status, blackout)
  {
    AdmittedRowsValid(rows, status);
    if Distinct(rows) {
      forall c | c in status.cables
        ensures CableAllows(c, Desired(rows, status), blackout) <==> MayLeave(c, rows, status, blackout)
      {
        AdmittedCable(rows, status, c, blackout);
      }
    }
  }

  // ---- the obstacles ----

  lemma ObstacleOf(rows: seq<Row>, status: Status, u: int, blackout: bool)
    requires Distinct(rows)
    ensures Obstacle(u, Desired(rows, status), status, blackout)
            == if Busy(rows, status, u) then Some(WaitForStop(u))
               else if Broken(rows, status, u) && !blackout then Some(RecoveryNeedsBlackout(u))
               else if Missing(rows, status, u) then Some(Reconnect(u))
               else None
  {
    AdmittedStopping(rows, status, u);
    AdmittedStart(rows, status, u);
    RebindListed(rows, status, u);
  }

  lemma {:induction false} FirstOf(universes: seq<int>, rows: seq<Row>, status: Status, blackout: bool)
    ensures var r := FirstObstacle(universes, rows, status, blackout);
      && (r.None? <==> forall u :: u in universes ==> Obstacle(u, rows, status, blackout).None?)
      && (r.Some? ==> exists u :: u in universes && Obstacle(u, rows, status, blackout) == r)
    decreases |universes|
  {
    if universes != [] { FirstOf(universes[1..], rows, status, blackout); }
  }

  /** The blackout the plan's validity asks for is enough: no valid plan stops a cable without it. */
  lemma AdmissibleStopsUnderBlackout(rows: seq<Row>, status: Status, blackout: bool, c: Cable)
    requires Admissible(rows, status, blackout) && c in status.cables && Disturbs(c, rows, status)
    ensures blackout
  {
    assert MayLeave(c, rows, status, blackout);
  }

  /** So the second blackout check of the source can never be the one that refuses. */
  lemma BlackoutCheckIsRedundant(plan: Plan, ctx: Context)
    ensures Decide(plan, ctx) != Reject(NeedsBlackout)
  {
    if ctx.status.Some? {
      var status := ctx.status.value;
      var rows := Desired(plan.usb, status);
      ValidIffAdmissible(plan.usb, status, ctx.blackout);
      if ValidPlan(rows, status, ctx.blackout) && Stops(rows, status) != [] {
        var c := Stops(rows, status)[0];
        assert c in Stops(rows, status);
        AdmittedStop(plan.usb, status, c);
        AdmissibleStopsUnderBlackout(plan.usb, status, ctx.blackout, c);
      }
      FirstOf(Mutating(rows, status), rows, status, ctx.blackout);
      forall u ensures Obstacle(u, rows, status, ctx.blackout) != Some(NeedsBlackout) { }
    }
  }

  // ---- the decision ----

  lemma MembersDiffer(plan: Plan, status: Status)
    requires Distinct(plan.usb)
    ensures var rows := Desired(plan.usb, status);
      (Stops(rows, status) == [] && Rebind(rows, status) == [] && Removed(rows, status) == []
       && Starts(rows, status) == [])
      <==> !(exists u :: Changes(plan.usb, status, u))
           && !(exists c :: c in status.cables && Disturbs(c, plan.usb, status))
  {
    var rows := Desired(plan.usb, status);
    StopsNothing(plan.usb, status);
    ChangesNothing(plan.usb, status);
  }

  lemma StopsNothing(rows: seq<Row>, status: Status)
    ensures Stops(Desired(rows, status), status) == [] <==> !exists c :: c in status.cables && Disturbs(c, rows, status)
  {
    var stops := Stops(Desired(rows, status), status);
    forall c | c in status.cables ensures c in stops <==> Disturbs(c, rows, status) { AdmittedStop(rows, status, c); }
    MemberOrEmpty(stops);
  }

  lemma ChangesNothing(rows: seq<Row>, status: Status)
    requires Distinct(rows)
    ensures var d := Desired(rows, status);
      Rebind(d, status) == [] && Removed(d, status) == [] && Starts(d, status) == []
      <==> !exists u :: Changes(rows, status, u)
  {
    var d := Desired(rows, status);
    forall u ensures u in Mutating(d, status) <==> Changes(rows, status, u) { AdmittedChange(rows, status, u); }
    if Mutating(d, status) != [] { assert Mutating(d, status)[0] in Mutating(d, status); }
    NoUniverses(Rebind(d, status));
    NoUniverses(Starts(d, status));
    assert |Mutating(d, status)|
           == |RowUniverses(Rebind(d, status))| + |Removed(d, status)| + |RowUniverses(Starts(d, status))|;
  }

  lemma NoUniverses(rows: seq<Row>)
    ensures RowUniverses(rows) == [] <==> rows == []
  {
  }

  /**
   An apply goes ahead if and only if the project is current, the reading fresh, no old route runs, the plan is
   admissible and not otherwise refused, every universe it changes is ready, and something differs; with all but
   the last there is nothing to do, and else it is refused.
   */
  lemma GoesAheadIff(plan: Plan, ctx: Context)
    ensures Decide(plan, ctx).Go?
            <==> Accepted(plan, ctx) && AllReady(plan, ctx) && Differs(plan, ctx.status.value, ctx.network)
    ensures Decide(plan, ctx).Nothing?
            <==> Accepted(plan, ctx) && AllReady(plan, ctx) && !Differs(plan, ctx.status.value, ctx.network)
  {
    if ctx.status.Some? {
      ValidIffAdmissible(plan.usb, ctx.status.value, ctx.blackout);
      if Accepted(plan, ctx) {
        BlackoutCheckIsRedundant(plan, ctx);
        ReadyIffNoObstacle(plan, ctx);
        MembersDiffer(plan, ctx.status.value);
      }
    }
  }

  lemma ReadyIffNoObstacle(plan: Plan, ctx: Context)
    requires Accepted(plan, ctx)
    ensures var rows := Desired(plan.usb, ctx.status.value);
      FirstObstacle(Mutating(rows, ctx.status.value), rows, ctx.status.value, ctx.blackout).None?
      <==> AllReady(plan, ctx)
  {
    var status := ctx.status.value;
    var rows := Desired(plan.usb, status);
    FirstOf(Mutating(rows, status), rows, status, ctx.blackout);
    forall u
      ensures u in Mutating(rows, status) <==> Changes(plan.usb, status, u)
      ensures Obstacle(u, rows, status, ctx.blackout).None? <==> Ready(plan.usb, status, u, ctx.blackout)
    {
      AdmittedChange(plan.usb, status, u);
      ObstacleOf(plan.usb, status, u, ctx.blackout);
    }
  }

  /** Each refusal, with its own reason. */
  ghost predicate Refuses(plan: Plan, ctx: Context, reason: Rejection) {
    match reason
    case ProjectChanged => !ctx.current
    case NeedsRefresh => ctx.current && (ctx.status.None? || ctx.stale)
    case LegacyRouteActive => ctx.current && ctx.status.Some? && !ctx.stale && ctx.legacyActive
    case InvalidPlan =>
      && ctx.current && ctx.status.Some? && !ctx.stale && !ctx.legacyActive
      && (ctx.otherwiseRefused || !Admissible(plan.usb, ctx.status.value, ctx.blackout))
    case NeedsBlackout => false
    case WaitForStop(u) =>
      && Accepted(plan, ctx) && Changes(plan.usb, ctx.status.value, u) && Busy(plan.usb, ctx.status.value, u)
    case RecoveryNeedsBlackout(u) =>
      && Accepted(plan, ctx) && !ctx.blackout && Changes(plan.usb, ctx.status.value, u)
      && Broken(plan.usb, ctx.status.value, u) && !Busy(plan.usb, ctx.status.value, u)
    case Reconnect(u) =>
      && Accepted(plan, ctx) && Changes(plan.usb, ctx.status.value, u) && Missing(plan.usb, ctx.status.value, u)
      && !Busy(plan.usb, ctx.status.value, u) && (Broken(plan.usb, ctx.status.value, u) ==> ctx.blackout)
  }

  predicate ForAUniverse(reason: Rejection) {
    reason.WaitForStop? || reason.RecoveryNeedsBlackout? || reason.Reconnect?
  }

  /**
   A refusal has the reason it names, and the reasons that name no universe are given whenever they hold; one
   that names a universe is given whenever some changing universe of an accepted plan is not ready.
   */
  lemma RefusedForItsReason(plan: Plan, ctx: Context, reason: Rejection)
    ensures Decide(plan, ctx) == Reject(reason) ==> Refuses(plan, ctx, reason)
    ensures !ForAUniverse(reason) && Refuses(plan, ctx, reason) ==> Decide(plan, ctx) == Reject(reason)
    ensures (Decide(plan, ctx).Reject? && ForAUniverse(Decide(plan, ctx).reason))
            <==> Accepted(plan, ctx) && !AllReady(plan, ctx)
  {
    if ctx.status.Some? {
      ValidIffAdmissible(plan.usb, ctx.status.value, ctx.blackout);
      BlackoutCheckIsRedundant(plan, ctx);
      if Accepted(plan, ctx) {
        ReadyIffNoObstacle(plan, ctx);
        NamedUniverse(plan, ctx);
      }
    }
  }

  lemma NamedUniverse(plan: Plan, ctx: Context)
    requires Accepted(plan, ctx)
    ensures var rows := Desired(plan.usb, ctx.status.value);
      var r := FirstObstacle(Mutating(rows, ctx.status.value), rows, ctx.status.value, ctx.blackout);
      r.Some? ==> ForAUniverse(r.value) && Refuses(plan, ctx, r.value)
  {
    var status := ctx.status.value;
    var rows := Desired(plan.usb, status);
    FirstOf(Mutating(rows, status), rows, status, ctx.blackout);
    var r := FirstObstacle(Mutating(rows, status), rows, status, ctx.blackout);
    if r.Some? {
      var u :| u in Mutating(rows, status) && Obstacle(u, rows, status, ctx.blackout) == r;
      AdmittedChange(plan.usb, status, u);
      ObstacleOf(plan.usb, status, u, ctx.blackout);
    }
  }

  // ---- the stages of an accepted plan ----

  /** Which stages an accepted plan has: nothing is touched that the plan does not change. */
  ghost predicate Asked(plan: Plan, ctx: Context, stage: Stage)
    requires ctx.status.Some?
  {
    var rows, status := plan.usb, ctx.status.value;
    match stage
    case Authority => true
    case StopUsb(u) => Stopping(rows, status, u)
    case ClearUsb(u) => BoundAt(status, u) && (!Lists(rows, u) || RebindsAt(rows, status, u))
    case BindUsb(u, port) =>
      exists row :: row in rows && row.universe == u && row.port == Some(port) && Rebinds(row, status)
    case ApplyNetwork(network) => network == plan.network && network != ctx.network
    case StartUsb(u) => Begins(rows, status, u)
    case Refresh => ctx.refreshes
  }

  lemma StagesAreAsked(plan: Plan, ctx: Context, stage: Stage)
    requires Decide(plan, ctx).Go?
    ensures stage in Decide(plan, ctx).stages <==> Asked(plan, ctx, stage)
    ensures Decide(plan, ctx).stages[0] == Authority
    ensures ctx.refreshes ==> Decide(plan, ctx).stages[|Decide(plan, ctx).stages| - 1] == Refresh
  {
    GoesAheadIff(plan, ctx);
    WorkIsAsked(plan, ctx, stage);
    AroundTheWork(plan, ctx);
  }

  lemma AroundTheWork(plan: Plan, ctx: Context)
    requires Decide(plan, ctx).Go?
    ensures var status := ctx.status.value;
      Decide(plan, ctx).stages
      == [Authority] + Mutations(Desired(plan.usb, status), status, plan, ctx)
         + if ctx.refreshes then [Refresh] else []
  {
  }

  lemma WorkIsAsked(plan: Plan, ctx: Context, stage: Stage)
    requires Accepted(plan, ctx)
    ensures var rows := Desired(plan.usb, ctx.status.value);
      stage in Mutations(rows, ctx.status.value, plan, ctx)
      <==> !stage.Authority? && !stage.Refresh? && Asked(plan, ctx, stage)
  {
    var status := ctx.status.value;
    var rows := Desired(plan.usb, status);
    StageIn(rows, status, plan, ctx, stage);
    match stage
    case StopUsb(u) => StopIsAsked(plan.usb, status, u);
    case ClearUsb(u) => ClearIsAsked(plan.usb, status, u);
    case BindUsb(u, port) => BindIsAsked(plan.usb, status, u, port);
    case StartUsb(u) => StartIsAsked(plan.usb, status, u);
    case _ =>
  }

  /** Each kind of stage is in the part of the list made of that kind. */
  lemma StageIn(rows: seq<Row>, status: Status, plan: Plan, ctx: Context, stage: Stage)
    ensures stage in Mutations(rows, status, plan, ctx) <==>
      match stage
      case Authority => false
      case Refresh => false
      case StopUsb(_) => stage in StopStages(Stops(rows, status))
      case ClearUsb(_) => stage in ClearStages(Clears(rows, status))
      case BindUsb(_, _) => stage in BindStages(Rebind(rows, status))
      case ApplyNetwork(network) => network == plan.network && network != ctx.network
      case StartUsb(_) => stage in StartStages(Starts(rows, status))
  {
    var a, b, c := StopStages(Stops(rows, status)), ClearStages(Clears(rows, status)), BindStages(Rebind(rows, status));
    var n, e := NetworkStages(plan, ctx), StartStages(Starts(rows, status));
    InFive(a, b, c, n, e, stage);
    assert Mutations(rows, status, plan, ctx) == a + b + c + n + e;
  }

  lemma InFive(a: seq<Stage>, b: seq<Stage>, c: seq<Stage>, d: seq<Stage>, e: seq<Stage>, stage: Stage)
    ensures stage in a + b + c + d + e <==> stage in a || stage in b || stage in c || stage in d || stage in e
  {
  }

  lemma StopIsAsked(rows: seq<Row>, status: Status, u: int)
    ensures StopUsb(u) in StopStages(Stops(Desired(rows, status), status)) <==> Stopping(rows, status, u)
  {
    var stops := Stops(Desired(rows, status), status);
    AdmittedStopping(rows, status, u);
    if StopUsb(u) in StopStages(stops) {
      var k :| 0 <= k < |stops| && StopStages(stops)[k] == StopUsb(u);
      assert stops[k] in stops;
    }
    if Stopping(rows, status, u) {
      var c :| c in stops && c.universe == Some(u);
      var i :| 0 <= i < |stops| && stops[i] == c;
      assert StopStages(stops)[i] == StopUsb(u);
    }
  }

  lemma BindIsAsked(rows: seq<Row>, status: Status, u: int, port: Port)
    ensures BindUsb(u, port) in BindStages(Rebind(Desired(rows, status), status))
            <==> exists row :: row in rows && row.universe == u && row.port == Some(port) && Rebinds(row, status)
  {
    var d := Desired(rows, status);
    var rebind := Rebind(d, status);
    if BindUsb(u, port) in BindStages(rebind) {
      var k :| 0 <= k < |rebind| && BindStages(rebind)[k] == BindUsb(u, port);
      assert rebind[k] in rebind;
      var i :| 0 <= i < |d| && d[i] == rebind[k];
      AdmittedRow(rows, status, i);
      assert rows[i] in rows;
    }
    if exists row :: row in rows && row.universe == u && row.port == Some(port) && Rebinds(row, status) {
      var row :| row in rows && row.universe == u && row.port == Some(port) && Rebinds(row, status);
      var i :| 0 <= i < |rows| && rows[i] == row;
      AdmittedRow(rows, status, i);
      assert d[i] in rebind;
      var k :| 0 <= k < |rebind| && rebind[k] == d[i];
      assert BindStages(rebind)[k] == BindUsb(u, port);
    }
  }

  lemma StartIsAsked(rows: seq<Row>, status: Status, u: int)
    requires Distinct(rows)
    ensures StartUsb(u) in StartStages(Starts(Desired(rows, status), status)) <==> Begins(rows, status, u)
  {
    var starts := Starts(Desired(rows, status), status);
    AdmittedStart(rows, status, u);
    if Begins(rows, status, u) {
      var row :| row in starts && row.universe == u;
      var i :| 0 <= i < |starts| && starts[i] == row;
      assert StartStages(starts)[i] == StartUsb(u);
    }
  }

  lemma ClearIsAsked(rows: seq<Row>, status: Status, u: int)
    ensures ClearUsb(u) in ClearStages(Clears(Desired(rows, status), status))
            <==> BoundAt(status, u) && (!Lists(rows, u) || RebindsAt(rows, status, u))
  {
    var d := Desired(rows, status);
    var clears := Clears(d, status);
    AdmittedLists(rows, status, u);
    if ClearUsb(u) in ClearStages(clears) {
      var k :| 0 <= k < |clears| && ClearStages(clears)[k] == ClearUsb(u);
      assert clears[k] in clears;
    }
    if BoundAt(status, u) && (!Lists(rows, u) || RebindsAt(rows, status, u)) {
      var b := ClearedBinding(rows, status, u);
      var k :| 0 <= k < |clears| && clears[k] == b;
      assert ClearStages(clears)[k] == ClearUsb(u);
    }
  }

  lemma ClearedBinding(rows: seq<Row>, status: Status, u: int) returns (b: Binding)
    requires BoundAt(status, u) && (!Lists(rows, u) || RebindsAt(rows, status, u))
    ensures b in Clears(Desired(rows, status), status) && b.universe == u
  {
    var d := Desired(rows, status);
    AdmittedLists(rows, status, u);
    if !Lists(rows, u) {
      b :| b in status.bindings && b.universe == u;
      assert b in Removed(d, status);
    } else {
      var row :| row in Rebind(d, status) && row.universe == u;
      b := FindBinding(status.bindings, u).value;
    }
  }
}
