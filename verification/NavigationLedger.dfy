/**
 Workspace navigation of app/src/createWorkspaceNavigationController.ts: a private ledger of
 visited routes beside the browser's session history.  A history state written by the controller
 carries only an index and a token; the ledger says which token is current for each index.

 The browser is part of the state: its stack and position, the traversals the controller has asked
 for (`go` is asynchronous) and the popstate events that have been raised but not yet handled.
 Only this controller writes same-document history.
 */
module NavigationLedger {
  import opened Prelude

  /** The own properties of a route object. */
  type Route = map<string, string>

  /** `Foreign` is any state that is not this session's. */
  datatype HistoryState = Foreign(tag: nat) | Ours(index: nat, token: nat)

  datatype Entry = Entry(index: nat, epoch: int, route: Option<Route>)

  datatype Restore = Restore(route: Route, token: nat, epoch: int)

  datatype State = State(
    entries: map<nat, Entry>,
    tokens: map<nat, nat>,
    nextToken: nat,
    current: Option<Entry>,
    initialized: bool,
    repairing: bool,
    disposed: bool,
    stack: seq<HistoryState>,       // the browser
    pos: nat,
    gos: seq<int>,
    popped: seq<HistoryState>,
    base: int,                      // what an observer notes: where index 0 belongs,
    written: map<nat, Entry>,       // what a token was issued for,
    restored: seq<Restore>)         // and the calls of the restore callback

  datatype Event =
    | RouteEffect(epoch: int, route: Route)   // the effect that tracks epoch and route
    | Land(delta: int)                        // a traversal by the user completes
    | LandGo                                  // the oldest requested traversal completes
    | PopState(epoch: int, accepts: bool)     // the oldest popstate event is handled
    | Dispose

  function Init(stack: seq<HistoryState>, pos: nat): State {
    State(map[], map[], 0, None, false, false, false, stack, pos, [], [], 0, map[], [])
  }

  // ---- the segments ----

  function ReadIndex(s: State, h: HistoryState): Option<nat> {
    if h.Ours? && h.index in s.entries && h.index in s.tokens && s.tokens[h.index] == h.token
    then Some(h.index) else None
  }

  function Here(s: State): Option<nat>
    requires s.pos < |s.stack|
  {
    ReadIndex(s, s.stack[s.pos])
  }

  /** Issues the token for an entry that is already in the ledger. */
  function Issue(s: State, index: nat): State
    requires index in s.entries
  {
    var token := s.nextToken + 1;
    s.(nextToken := token, tokens := s.tokens[index := token], written := s.written[token := s.entries[index]])
  }

  /** `entries.set` followed by replaceState(stateFor(index)). */
  function Mark(s: State, entry: Entry): (t: State)
    requires s.pos < |s.stack|
    ensures t.pos < |t.stack|
  {
    var t := Issue(s.(entries := s.entries[entry.index := entry]), entry.index);
    t.(stack := t.stack[t.pos := Ours(entry.index, t.nextToken)], base := t.pos - entry.index, current := Some(entry))
  }

  function PushIndex(s: State): nat
    requires s.pos < |s.stack|
  {
    if Here(s).Some? then Here(s).value + 1
    else if s.current.Some? then s.current.value.index + 1
    else 0
  }

  function Below(entries: map<nat, Entry>, index: nat): map<nat, Entry> {
    map k | k in entries && k < index :: entries[k]
  }

  /** The ledger's half of a push: truncate, record, and issue a token. */
  function Enter(s: State, entry: Entry): State {
    Issue(s.(entries := Below(s.entries, entry.index)[entry.index := entry]), entry.index).(current := Some(entry))
  }

  /** The browser's half. */
  function PushHistory(s: State, h: HistoryState, index: nat): (t: State)
    requires s.pos < |s.stack|
    ensures t.pos < |t.stack|
  {
    s.(stack := s.stack[..s.pos + 1] + [h], pos := s.pos + 1, base := s.pos + 1 - index)
  }

  function PushAt(s: State, index: nat, route: Route, epoch: int): (t: State)
    requires s.pos < |s.stack|
    ensures t.pos < |t.stack|
  {
    var t := Enter(s, Entry(index, epoch, Some(route)));
    PushHistory(t, Ours(index, t.nextToken), index)
  }

  function Push(s: State, route: Route, epoch: int): (t: State)
    requires s.pos < |s.stack|
    ensures t.pos < |t.stack|
  {
    PushAt(s, PushIndex(s), route, epoch)
  }

  function Repair(s: State, target: Option<nat>): (t: State)
    requires s.pos < |s.stack|
    ensures t.pos < |t.stack|
  {
    if s.current.None? || s.current.value.route.None? then s
    else
      var current := s.current.value;
      match target
      case None => Push(Mark(s.(entries := map[]), Entry(0, current.epoch, None)), current.route.value, current.epoch)
      case Some(index) =>
        if current.index == index then s
        else s.(repairing := true, gos := s.gos + [current.index - index])
  }

  function OnPopState(s: State, h: HistoryState, epoch: int, accepts: bool): (t: State)
    requires s.pos < |s.stack|
    ensures t.pos < |t.stack|
  {
    if s.disposed || s.current.None? then s
    else
      var index := ReadIndex(s, h);
      if index != Here(s) then s
      else if s.repairing && index == Some(s.current.value.index) then s.(repairing := false)
      else if index.None? then Repair(s, None)
      else
        var target := s.entries[index.value];
        if target.route.None? || target.epoch != epoch then Repair(s, index)
        else if index.value == s.current.value.index then s
        else
          var t := s.(restored := s.restored + [Restore(target.route.value, s.tokens[index.value], epoch)]);
          if accepts then t.(current := Some(target), repairing := false) else Repair(t, index)
  }

  predicate Unchanged(s: State, epoch: int, route: Route) {
    s.current.Some? && s.current.value.epoch == epoch && s.current.value.route == Some(route)
  }

  function OnRouteEffect(s: State, epoch: int, route: Route): (t: State)
    requires s.pos < |s.stack|
    ensures t.pos < |t.stack|
  {
    if s.disposed then s
    else if !s.initialized then
      Push(Mark(s.(initialized := true), Entry(0, epoch, None)), route, epoch)
    else if Unchanged(s, epoch, route) then s
    else
      var t :=
        if s.current.Some? && s.current.value.epoch != epoch then
          Mark(s, Entry(if Here(s).Some? then Here(s).value else s.current.value.index, epoch, None))
        else s;
      Push(t.(repairing := false), route, epoch)
  }

  function Traverse(s: State, delta: int): (t: State)
    requires s.pos < |s.stack|
    ensures t.pos < |t.stack|
  {
    if delta != 0 && 0 <= s.pos + delta < |s.stack|
    then s.(pos := s.pos + delta, popped := s.popped + [s.stack[s.pos + delta]])
    else s
  }

  function Step(s: State, e: Event): (t: State)
    requires s.pos < |s.stack|
    ensures t.pos < |t.stack|
  {
    match e
    case RouteEffect(epoch, route) => OnRouteEffect(s, epoch, route)
    case Land(delta) => Traverse(s, delta)
    case LandGo => if s.gos == [] then s else Traverse(s.(gos := s.gos[1..]), s.gos[0])
    case PopState(epoch, accepts) =>
      if s.popped == [] then s
      else OnPopState(s.(popped := s.popped[1..]), s.popped[0], epoch, accepts)
    case Dispose => s.(disposed := true, entries := map[], tokens := map[])
  }

  function Run(s: State, events: seq<Event>): (t: State)
    requires s.pos < |s.stack|
    ensures t.pos < |t.stack|
    decreases |events|
  {
    if events == [] then s
    else
      Step(Run(s, events[..|events| - 1]), events[|events| - 1])
  }

  // ---- the invariant ----

  predicate Live(s: State, p: nat)
    requires p < |s.stack|
  {
    ReadIndex(s, s.stack[p]).Some?
  }

  /**
   Below height n, a live state sits where its index says, and only live states lie above it.
   */
  predicate PlacedBelow(s: State, n: nat)
    requires n <= |s.stack|
  {
    && (forall p :: 0 <= p < n && Live(s, p) ==> s.stack[p].index == p - s.base)
    && (forall p, q :: 0 <= p < q < n && Live(s, p) ==> Live(s, q))
  }

  predicate PlacesInv(s: State) {
    PlacedBelow(s, |s.stack|)
  }

  /** The ledger's own bookkeeping: entries are what their current token was issued for. */
  predicate LedgerInv(s: State) {
    && (forall i :: i in s.entries ==>
          && s.entries[i].index == i && i in s.tokens && s.tokens[i] <= s.nextToken
          && s.tokens[i] in s.written && s.written[s.tokens[i]] == s.entries[i])
    && (forall i :: i in s.tokens ==> s.tokens[i] <= s.nextToken)
    && Issued(s.stack, s.nextToken) && Issued(s.popped, s.nextToken)
  }

  predicate Issued(hs: seq<HistoryState>, n: nat) {
    forall h :: h in hs && h.Ours? ==> h.token <= n
  }

  /** The current entry is in the ledger and its state is in the browser's stack. */
  predicate CurrentInv(s: State) {
    && s.current.Some? && s.current.value.route.Some?
    && s.current.value.index in s.entries && s.entries[s.current.value.index] == s.current.value
    && s.current.value.index in s.tokens
    && 0 <= s.base + s.current.value.index < |s.stack|
    && s.stack[s.base + s.current.value.index] == Ours(s.current.value.index, s.tokens[s.current.value.index])
    && 0 in s.entries && s.entries[0].route.None?
  }

  predicate Running(s: State) {
    PlacesInv(s) && LedgerInv(s) && CurrentInv(s)
  }

  predicate Unstarted(s: State) {
    && s.current.None? && s.entries == map[] && s.tokens == map[] && LedgerInv(s) && !s.repairing
    && forall h :: h in s.stack ==> h.Foreign?
  }

  predicate Inv(s: State) {
    s.pos < |s.stack| && (s.disposed || (if s.initialized then Running(s) else Unstarted(s)))
  }

  lemma MarkKeeps(s: State, entry: Entry)
    requires s.pos < |s.stack| && LedgerInv(s) && PlacedBelow(s, s.pos + 1)
    requires Here(s).Some? ==> Here(s).value == entry.index
    ensures var t := Mark(s, entry);
      LedgerInv(t) && PlacedBelow(t, t.pos + 1) && Here(t) == Some(entry.index)
  {
    MarkKeepsLedger(s, entry);
    var t := Mark(s, entry);
    forall p | 0 <= p < t.pos && Live(s, p) ensures t.base == s.base && s.stack[p].index == p - t.base {
      assert Live(s, s.pos);
    }
    forall p | 0 <= p < t.pos ensures Live(t, p) <==> Live(s, p) && s.stack[p].index != entry.index {
    }
  }

  lemma MarkKeepsLedger(s: State, entry: Entry)
    requires s.pos < |s.stack| && LedgerInv(s)
    ensures var t := Mark(s, entry); LedgerInv(t) && Here(t) == Some(entry.index)
  {
  }

  lemma PushKeeps(s: State, route: Route, epoch: int)
    requires s.pos < |s.stack| && LedgerInv(s) && PlacedBelow(s, s.pos + 1)
    requires 0 in s.entries && s.entries[0].route.None? && PushIndex(s) > 0
    ensures Running(Push(s, route, epoch)) && Here(Push(s, route, epoch)) == Some(PushIndex(s))
  {
    PushKeepsLedger(s, route, epoch);
    PushKeepsPlaces(s, route, epoch);
    var t := Push(s, route, epoch);
    assert t.current.value.index == PushIndex(s);
  }

  lemma PushKeepsPlaces(s: State, route: Route, epoch: int)
    requires s.pos < |s.stack| && LedgerInv(s) && PlacedBelow(s, s.pos + 1)
    ensures PlacesInv(Push(s, route, epoch))
  {
    var t := Push(s, route, epoch);
    assert Live(s, s.pos) ==> t.base == s.base;
    forall p | 0 <= p <= s.pos ensures Live(t, p) <==> Live(s, p) {
    }
  }

  lemma PushKeepsLedger(s: State, route: Route, epoch: int)
    requires s.pos < |s.stack| && LedgerInv(s)
    ensures LedgerInv(Push(s, route, epoch))
  {
  }

  lemma RepairUnknownKeeps(s: State)
    requires s.pos < |s.stack| && LedgerInv(s) && CurrentInv(s)
    ensures Running(Repair(s, None))
  {
    var c := s.(entries := map[]);
    var m := Mark(c, Entry(0, s.current.value.epoch, None));
    assert LedgerInv(c) && PlacedBelow(c, c.pos + 1);
    MarkKeeps(c, Entry(0, s.current.value.epoch, None));
    PushKeeps(m, s.current.value.route.value, s.current.value.epoch);
  }

  lemma PopStateKeeps(s: State, h: HistoryState, epoch: int, accepts: bool)
    requires s.pos < |s.stack| && !s.disposed && Running(s)
    ensures Running(OnPopState(s, h, epoch, accepts))
  {
    if ReadIndex(s, h) == Here(s) && Here(s).None? {
      RepairUnknownKeeps(s);
    } else {
      var t := OnPopState(s, h, epoch, accepts);
      ReadablePopMovesNothing(s, h, epoch, accepts);
      SamePlaces(s, t);
      ReadablePopKeepsCurrent(s, h, epoch, accepts);
    }
  }

  lemma ReadablePopKeepsCurrent(s: State, h: HistoryState, epoch: int, accepts: bool)
    requires s.pos < |s.stack| && Running(s) && (ReadIndex(s, h) != Here(s) || Here(s).Some?)
    ensures CurrentInv(OnPopState(s, h, epoch, accepts))
  {
    ReadablePopMovesNothing(s, h, epoch, accepts);
    CurrentOrShown(s, h, epoch, accepts);
    assert Here(s).Some? ==> Live(s, s.pos);
  }

  lemma CurrentOrShown(s: State, h: HistoryState, epoch: int, accepts: bool)
    requires s.pos < |s.stack| && (ReadIndex(s, h) != Here(s) || Here(s).Some?)
    ensures var t := OnPopState(s, h, epoch, accepts);
      t.current == s.current ||
      (Here(s).Some? && t.current == Some(s.entries[Here(s).value]) && t.current.value.route.Some?)
  {
  }

  lemma ReadablePopMovesNothing(s: State, h: HistoryState, epoch: int, accepts: bool)
    requires s.pos < |s.stack| && (ReadIndex(s, h) != Here(s) || Here(s).Some?)
    ensures var t := OnPopState(s, h, epoch, accepts);
      && t.entries == s.entries && t.tokens == s.tokens && t.stack == s.stack && t.base == s.base
      && t.nextToken == s.nextToken && t.written == s.written && t.popped == s.popped
      && t.pos == s.pos && t.initialized == s.initialized && t.disposed == s.disposed
  {
  }

  lemma SamePlaces(s: State, t: State)
    requires PlacesInv(s) && LedgerInv(s)
    requires t.entries == s.entries && t.tokens == s.tokens && t.stack == s.stack && t.base == s.base
    requires t.nextToken == s.nextToken && t.written == s.written
    requires forall h :: h in t.popped ==> h in s.popped || h in s.stack
    ensures PlacesInv(t) && LedgerInv(t)
  {
    forall p | 0 <= p < |t.stack| ensures Live(t, p) <==> Live(s, p) { }
  }

  lemma FirstRouteKeeps(s: State, epoch: int, route: Route)
    requires s.pos < |s.stack| && Unstarted(s)
    ensures Running(Push(Mark(s.(initialized := true), Entry(0, epoch, None)), route, epoch))
  {
    var c := s.(initialized := true);
    assert LedgerInv(c) && PlacedBelow(c, c.pos + 1);
    MarkKeeps(c, Entry(0, epoch, None));
    PushKeeps(Mark(c, Entry(0, epoch, None)), route, epoch);
  }

  function BoundaryEntry(s: State, epoch: int): Entry
    requires s.pos < |s.stack| && s.current.Some?
  {
    Entry(if Here(s).Some? then Here(s).value else s.current.value.index, epoch, None)
  }

  lemma BoundaryKeeps(s: State, epoch: int, route: Route)
    requires s.pos < |s.stack| && Running(s)
    ensures Running(Push(Mark(s, BoundaryEntry(s, epoch)).(repairing := false), route, epoch))
  {
    BoundaryReady(s, epoch);
    PushKeeps(Mark(s, BoundaryEntry(s, epoch)).(repairing := false), route, epoch);
  }

  lemma BoundaryReady(s: State, epoch: int)
    requires s.pos < |s.stack| && Running(s)
    ensures var m := Mark(s, BoundaryEntry(s, epoch)).(repairing := false);
      && LedgerInv(m) && PlacedBelow(m, m.pos + 1)
      && 0 in m.entries && m.entries[0].route.None? && PushIndex(m) > 0
  {
    MarkKeeps(s, BoundaryEntry(s, epoch));
    EndRepair(Mark(s, BoundaryEntry(s, epoch)));
    BoundaryKeepsBottom(s, epoch);
  }

  lemma BoundaryKeepsBottom(s: State, epoch: int)
    requires s.pos < |s.stack| && CurrentInv(s)
    ensures var m := Mark(s, BoundaryEntry(s, epoch)); 0 in m.entries && m.entries[0].route.None?
  {
  }

  lemma EndRepair(s: State)
    requires s.pos < |s.stack| && LedgerInv(s) && PlacedBelow(s, s.pos + 1)
    ensures var t := s.(repairing := false); LedgerInv(t) && PlacedBelow(t, t.pos + 1) && Here(t) == Here(s)
  {
    forall p | 0 <= p <= s.pos ensures Live(s.(repairing := false), p) <==> Live(s, p) { }
  }

  lemma SamePlacesPush(s: State, epoch: int, route: Route)
    requires s.pos < |s.stack| && Running(s)
    ensures Running(Push(s.(repairing := false), route, epoch))
  {
    SamePlaces(s, s.(repairing := false));
    PushKeeps(s.(repairing := false), route, epoch);
  }

  lemma RouteEffectKeeps(s: State, epoch: int, route: Route)
    requires Inv(s) && !s.disposed
    ensures Inv(OnRouteEffect(s, epoch, route))
  {
    if !s.initialized {
      FirstRouteKeeps(s, epoch, route);
    } else if !Unchanged(s, epoch, route) {
      if s.current.value.epoch != epoch {
        BoundaryKeeps(s, epoch, route);
      } else {
        SamePlacesPush(s, epoch, route);
      }
    }
  }

  lemma TraverseKeeps(s: State, delta: int)
    requires Inv(s)
    ensures Inv(Traverse(s, delta))
  {
    var t := Traverse(s, delta);
    if t != s { assert s.stack[t.pos] in s.stack; }
    if !s.disposed && s.initialized { SamePlaces(s, t); }
  }

  lemma StepKeeps(s: State, e: Event)
    requires Inv(s)
    ensures Inv(Step(s, e))
  {
    match e
    case RouteEffect(epoch, route) => if !s.disposed { RouteEffectKeeps(s, epoch, route); }
    case Land(delta) => TraverseKeeps(s, delta);
    case LandGo => LandGoKeeps(s);
    case PopState(epoch, accepts) => HandledPopKeeps(s, epoch, accepts);
    case Dispose =>
  }

  lemma LandGoKeeps(s: State)
    requires Inv(s)
    ensures Inv(Step(s, LandGo))
  {
    if s.gos != [] {
      var d := s.(gos := s.gos[1..]);
      if !s.disposed && s.initialized { SamePlaces(s, d); }
      TraverseKeeps(d, s.gos[0]);
    }
  }

  lemma HandledPopKeeps(s: State, epoch: int, accepts: bool)
    requires Inv(s)
    ensures Inv(Step(s, PopState(epoch, accepts)))
  {
    if s.popped != [] {
      var d := s.(popped := s.popped[1..]);
      if !s.disposed && s.initialized {
        SamePlaces(s, d);
        PopStateKeeps(d, s.popped[0], epoch, accepts);
      }
    }
  }

  predicate Fresh(stack: seq<HistoryState>, pos: nat) {
    pos < |stack| && forall p :: 0 <= p < |stack| ==> stack[p].Foreign?
  }

  /** The invariant holds over every run of a newly mounted controller. */
  lemma {:induction false} EveryRun(stack: seq<HistoryState>, pos: nat, events: seq<Event>)
    requires Fresh(stack, pos)
    ensures Inv(Run(Init(stack, pos), events))
    decreases |events|
  {
    if events != [] {
      EveryRun(stack, pos, events[..|events| - 1]);
      StepKeeps(Run(Init(stack, pos), events[..|events| - 1]), events[|events| - 1]);
    }
  }

  // ---- what the runs promise ----

  predicate CurrentIsAt(s: State, p: int) {
    && s.current.Some? && s.current.value.index in s.tokens
    && 0 <= p < |s.stack| && s.stack[p] == Ours(s.current.value.index, s.tokens[s.current.value.index])
  }

  /** A restore call is for the very history entry the browser is at, and for this project. */
  predicate TrueRestore(s: State, h: HistoryState, epoch: int, r: Restore)
    requires s.pos < |s.stack|
  {
    && h.Ours? && s.stack[s.pos] == h && h.token == r.token
    && h.index in s.tokens && s.tokens[h.index] == h.token && s.pos == s.base + h.index
    && r.epoch == epoch && r.token in s.written && s.written[r.token] == Entry(h.index, epoch, Some(r.route))
  }

  /**
   Restore is called only with the route that the history entry now shown was created with, under
   that entry's still current token, and only if that was in the present project; a branch that was
   truncated and whose index was reused has lost its token and is never restored.
   */
  lemma RestoresOnlyLiveRoutes(stack: seq<HistoryState>, pos: nat, events: seq<Event>, epoch: int, accepts: bool)
    requires Fresh(stack, pos)
    ensures var s := Run(Init(stack, pos), events);
      var t := Step(s, PopState(epoch, accepts));
      t.restored == s.restored ||
      (s.popped != [] && exists r :: t.restored == s.restored + [r] && TrueRestore(s, s.popped[0], epoch, r))
  {
    EveryRun(stack, pos, events);
    PopStateRestoresTruly(Run(Init(stack, pos), events), epoch, accepts);
  }

  lemma PopStateRestoresTruly(s: State, epoch: int, accepts: bool)
    requires Inv(s)
    ensures var t := Step(s, PopState(epoch, accepts));
      t.restored == s.restored ||
      (s.popped != [] && exists r :: t.restored == s.restored + [r] && TrueRestore(s, s.popped[0], epoch, r))
  {
    var t := Step(s, PopState(epoch, accepts));
    if t.restored != s.restored {
      var h := s.popped[0];
      assert h in s.popped;
      assert Live(s, s.pos);
      assert TrueRestore(s, h, epoch, Restore(s.entries[h.index].route.value, h.token, epoch));
    }
  }

  /** No other segment calls restore. */
  lemma OnlyPopStateRestores(s: State, e: Event)
    requires s.pos < |s.stack| && !e.PopState?
    ensures Step(s, e).restored == s.restored
  {
  }

  /** The traversal just requested, if any, leads from here to the current entry. */
  predicate AimsAtCurrent(s: State, t: State) {
    t.gos == s.gos ||
    (|t.gos| == |s.gos| + 1 && t.gos[..|s.gos|] == s.gos && t.repairing
     && CurrentIsAt(t, t.pos + t.gos[|s.gos|]))
  }

  /** Every traversal the controller asks for leads from here to the entry it considers current. */
  lemma RepairAimsAtCurrent(stack: seq<HistoryState>, pos: nat, events: seq<Event>, e: Event)
    requires Fresh(stack, pos) && !e.LandGo?
    requires var s := Run(Init(stack, pos), events); !s.disposed && s.initialized
    ensures AimsAtCurrent(Run(Init(stack, pos), events), Step(Run(Init(stack, pos), events), e))
  {
    EveryRun(stack, pos, events);
    StepAimsAtCurrent(Run(Init(stack, pos), events), e);
  }

  lemma StepAimsAtCurrent(s: State, e: Event)
    requires Inv(s) && !s.disposed && s.initialized && !e.LandGo?
    ensures AimsAtCurrent(s, Step(s, e))
  {
    match e
    case RouteEffect(epoch, route) => RouteEffectGos(s, epoch, route);
    case PopState(epoch, accepts) =>
      if s.popped != [] {
        SamePlaces(s, s.(popped := s.popped[1..]));
        PopAimsAtCurrent(s.(popped := s.popped[1..]), s.popped[0], epoch, accepts);
      }
    case Land(_) =>
    case LandGo =>
    case Dispose =>
  }

  lemma PopAimsAtCurrent(s: State, h: HistoryState, epoch: int, accepts: bool)
    requires s.pos < |s.stack| && Running(s)
    ensures AimsAtCurrent(s, OnPopState(s, h, epoch, accepts))
  {
    if ReadIndex(s, h) != Here(s) {
      StalePopStateIsIgnored(s, h, epoch, accepts);
    } else if Here(s).None? {
      TakeOverGos(s, h, epoch, accepts);
    } else {
      ReadablePopAims(s, h, epoch, accepts);
    }
  }

  lemma RouteEffectGos(s: State, epoch: int, route: Route)
    requires s.pos < |s.stack|
    ensures OnRouteEffect(s, epoch, route).gos == s.gos
  {
  }

  lemma TakeOverGos(s: State, h: HistoryState, epoch: int, accepts: bool)
    requires s.pos < |s.stack| && ReadIndex(s, h).None? && Here(s).None?
    ensures OnPopState(s, h, epoch, accepts).gos == s.gos
  {
  }

  lemma ReadablePopAims(s: State, h: HistoryState, epoch: int, accepts: bool)
    requires s.pos < |s.stack| && Running(s) && ReadIndex(s, h) == Here(s) && Here(s).Some?
    ensures AimsAtCurrent(s, OnPopState(s, h, epoch, accepts))
  {
    assert Live(s, s.pos);
  }

  // ---- what a route change and a popstate do ----

  /** The current entry is that route of that project. */
  predicate Holds(s: State, epoch: int, route: Route) {
    s.current.Some? && s.current.value == Entry(s.current.value.index, epoch, Some(route))
  }

  /** The route opens a new project: its entry lies above a fresh boundary. */
  predicate Crosses(s: State, epoch: int) { s.current.None? || s.current.value.epoch != epoch }

  /** One past the entry shown, or past the current one where that cannot be read. */
  function NextIndex(s: State): nat
    requires s.pos < |s.stack|
  {
    1 + if Here(s).Some? then Here(s).value else if s.current.Some? then s.current.value.index else 0
  }

  /** The ledger below n is kept, save for the boundary at n - 1 of a new project, and ends with the entry n. */
  ghost predicate LedgerUpTo(s: State, t: State, n: nat, epoch: int, crosses: bool)
    requires n > 0
  {
    && (forall k :: k in t.entries ==> k <= n)
    && (forall k :: 0 <= k < n - 1 || (k == n - 1 && !crosses) ==> (k in t.entries <==> k in s.entries))
    && (forall k :: (0 <= k < n - 1 || (k == n - 1 && !crosses)) && k in s.entries ==> t.entries[k] == s.entries[k])
    && (crosses ==> n - 1 in t.entries && t.entries[n - 1] == Entry(n - 1, epoch, None))
    && n in t.entries && t.current == Some(t.entries[n])
  }

  /** The browser below is kept, and what was above the shown entry is replaced by the new one. */
  ghost predicate ShownOnTop(s: State, t: State, n: nat, crosses: bool)
    requires n > 0 && s.pos < |s.stack|
  {
    && t.pos == s.pos + 1 && |t.stack| == t.pos + 1 && t.stack[..s.pos] == s.stack[..s.pos]
    && n in t.tokens && t.stack[t.pos] == Ours(n, t.tokens[n]) && s.nextToken < t.tokens[n] == t.nextToken
    && (crosses ==> n - 1 in t.tokens && t.stack[s.pos] == Ours(n - 1, t.tokens[n - 1])
                    && s.nextToken < t.tokens[n - 1])
    && (!crosses ==> t.stack[s.pos] == s.stack[s.pos])
  }

  ghost predicate Records(s: State, t: State, epoch: int, route: Route)
    requires s.pos < |s.stack|
  {
    var n, crosses := NextIndex(s), Crosses(s, epoch);
    && LedgerUpTo(s, t, n, epoch, crosses) && t.entries[n] == Entry(n, epoch, Some(route))
    && ShownOnTop(s, t, n, crosses) && t.nextToken in t.written && t.written[t.nextToken] == t.entries[n]
    && t.initialized && !t.disposed && !t.repairing
    && t.gos == s.gos && t.popped == s.popped && t.restored == s.restored
  }

  /**
   Over every run, a route that is not the current one of its project becomes exactly that: the new entry above the
   one shown, under a fresh token issued for it, with all that lay below kept and all that lay above dropped;
   effecting the same route again, or any route after disposal, changes nothing.
   */
  lemma RouteIsRecorded(stack: seq<HistoryState>, pos: nat, events: seq<Event>, epoch: int, route: Route)
    requires Fresh(stack, pos)
    ensures var s := Run(Init(stack, pos), events);
      var t := Step(s, RouteEffect(epoch, route));
      && (s.disposed || Holds(s, epoch, route) ==> t == s)
      && (!s.disposed && !Holds(s, epoch, route) ==> Records(s, t, epoch, route))
  {
    EveryRun(stack, pos, events);
    EffectRecords(Run(Init(stack, pos), events), epoch, route);
  }

  lemma EffectRecords(s: State, epoch: int, route: Route)
    requires Inv(s)
    ensures var t := Step(s, RouteEffect(epoch, route));
      && (s.disposed || Holds(s, epoch, route) ==> t == s)
      && (!s.disposed && !Holds(s, epoch, route) ==> Records(s, t, epoch, route))
  {
    if !s.disposed && !Holds(s, epoch, route) {
      if !s.initialized {
        FirstUnread(s);
        var c := s.(initialized := true);
        assert Mark(c, Entry(0, epoch, None)).(repairing := false) == Mark(c, Entry(0, epoch, None));
        MarkedRecords(s, c, Entry(0, epoch, None), route, epoch);
      } else if s.current.value.epoch != epoch {
        MarkedRecords(s, s, BoundaryEntry(s, epoch), route, epoch);
      } else {
        PlainRecords(s, route, epoch);
      }
    }
  }

  lemma FirstUnread(s: State)
    requires s.pos < |s.stack| && Unstarted(s)
    ensures Here(s).None?
  {
  }

  lemma PlainRecords(s: State, route: Route, epoch: int)
    requires s.pos < |s.stack| && Running(s) && s.initialized && !s.disposed && s.current.value.epoch == epoch
    ensures Records(s, Push(s.(repairing := false), route, epoch), epoch, route)
  {
    var r := s.(repairing := false);
    assert PushIndex(r) == NextIndex(s);
    PushUpTo(r, NextIndex(s), route, epoch);
  }

  lemma PushUpTo(s: State, n: nat, route: Route, epoch: int)
    requires s.pos < |s.stack| && n == PushIndex(s) > 0
    ensures PushedOn(s, Push(s, route, epoch), n, route, epoch)
  {
  }

  ghost predicate PushedOn(s: State, t: State, n: nat, route: Route, epoch: int)
    requires s.pos < |s.stack| && n > 0
  {
    && LedgerUpTo(s, t, n, epoch, false) && t.entries[n] == Entry(n, epoch, Some(route))
    && ShownOnTop(s, t, n, false) && t.nextToken in t.written && t.written[t.nextToken] == t.entries[n]
    && t.initialized == s.initialized && t.disposed == s.disposed && t.repairing == s.repairing
    && t.gos == s.gos && t.popped == s.popped && t.restored == s.restored && t.nextToken == s.nextToken + 1
    && forall k :: k in s.tokens && k != n ==> k in t.tokens && t.tokens[k] == s.tokens[k]
  }

  /** The boundary of a new project, written over the shown entry. */
  ghost predicate BoundarySet(s: State, m: State, n: nat, epoch: int)
    requires s.pos < |s.stack| && n > 0
  {
    && m == s.(entries := m.entries, tokens := m.tokens, nextToken := m.nextToken, stack := m.stack, base := m.base,
               current := m.current, written := m.written, initialized := true, repairing := false)
    && m.entries == s.entries[n - 1 := Entry(n - 1, epoch, None)]
    && m.nextToken == s.nextToken + 1 && m.tokens == s.tokens[n - 1 := m.nextToken]
    && m.stack == s.stack[s.pos := Ours(n - 1, m.nextToken)]
  }

  lemma AfterBoundary(s: State, m: State, t: State, n: nat, route: Route, epoch: int)
    requires s.pos < |s.stack| && n == NextIndex(s) && Crosses(s, epoch) && !s.disposed
    requires BoundarySet(s, m, n, epoch) && PushedOn(m, t, n, route, epoch)
    ensures Records(s, t, epoch, route)
  {
    assert m.stack[..s.pos] == s.stack[..s.pos];
    assert t.stack[s.pos] == m.stack[s.pos];
  }

  lemma MarkedRecords(s: State, c: State, boundary: Entry, route: Route, epoch: int)
    requires s.pos < |s.stack| && !s.disposed && LedgerInv(s) && Crosses(s, epoch) && c == s.(initialized := true)
    requires boundary == Entry(NextIndex(s) - 1, epoch, None)
    ensures Records(s, Push(Mark(c, boundary).(repairing := false), route, epoch), epoch, route)
  {
    var m := Mark(c, boundary).(repairing := false);
    BoundaryIsSet(s, c, boundary, epoch);
    PushUpTo(m, NextIndex(s), route, epoch);
    AfterBoundary(s, m, Push(m, route, epoch), NextIndex(s), route, epoch);
  }

  lemma BoundaryIsSet(s: State, c: State, boundary: Entry, epoch: int)
    requires s.pos < |s.stack| && LedgerInv(s) && c == s.(initialized := true)
    requires boundary == Entry(NextIndex(s) - 1, epoch, None)
    ensures var m := Mark(c, boundary).(repairing := false);
      BoundarySet(s, m, NextIndex(s), epoch) && PushIndex(m) == NextIndex(s)
  {
    MarkKeepsLedger(c, boundary);
  }

  /** The shown entry is a route of the present project other than the current one. */
  predicate Restorable(s: State, index: nat, epoch: int)
    requires index in s.entries && s.current.Some?
  {
    s.entries[index].route.Some? && s.entries[index].epoch == epoch && index != s.current.value.index
  }

  /**
   What the oldest popstate does: nothing if it announces another entry than the one shown; the current entry
   just ends a repair; another route of the project is offered for restoring and becomes current if accepted;
   and whatever else the ledger can read is left again by the way back to the current entry.
   */
  ghost predicate Decides(s: State, epoch: int, accepts: bool, t: State)
    requires s.pos < |s.stack| && s.popped != [] && s.current.Some?
  {
    var rest, index, current := s.popped[1..], Here(s), s.current.value;
    if ReadIndex(s, s.popped[0]) != index then t == s.(popped := rest)
    else if index.None? then TakenOver(s, t) && t.popped == rest && t.gos == s.gos
    else if index.value == current.index then t == s.(popped := rest, repairing := false)
    else index.value in s.entries && index.value in s.tokens && Leads(s, index.value, epoch, accepts, t)
  }

  /** A shown entry other than the current one is offered if it can be restored, and left again if it was not. */
  predicate Leads(s: State, index: nat, epoch: int, accepts: bool, t: State)
    requires s.popped != [] && s.current.Some? && index in s.entries && index in s.tokens
  {
    var target, offered := s.entries[index], Restorable(s, index, epoch);
    var asked := if offered then [Restore(target.route.value, s.tokens[index], epoch)] else [];
    var u := s.(popped := s.popped[1..], restored := s.restored + asked);
    t == if offered && accepts then u.(current := Some(target), repairing := false)
         else u.(repairing := true, gos := s.gos + [s.current.value.index - index])
  }

  lemma PopStateDecides(stack: seq<HistoryState>, pos: nat, events: seq<Event>, epoch: int, accepts: bool)
    requires Fresh(stack, pos)
    requires var s := Run(Init(stack, pos), events); Active(s) && s.popped != []
    ensures var s := Run(Init(stack, pos), events);
      s.current.Some? && Decides(s, epoch, accepts, Step(s, PopState(epoch, accepts)))
  {
    EveryRun(stack, pos, events);
    PopDecides(Run(Init(stack, pos), events), epoch, accepts);
  }

  lemma PopDecides(s: State, epoch: int, accepts: bool)
    requires Inv(s) && Active(s) && s.popped != []
    ensures Decides(s, epoch, accepts, Step(s, PopState(epoch, accepts)))
  {
    var d, h := s.(popped := s.popped[1..]), s.popped[0];
    PopStateIsHandled(s, epoch, accepts);
    SamePlaces(s, d);
    if ReadIndex(d, h) == Here(d) {
      if Here(d).None? { RepairUnknownRestarts(d); } else { ReadPopDecides(s, d, epoch, accepts); }
    }
  }

  lemma ReadPopDecides(s: State, d: State, epoch: int, accepts: bool)
    requires Inv(s) && Active(s) && s.popped != [] && d == s.(popped := s.popped[1..])
    requires ReadIndex(s, s.popped[0]) == Here(s) && Here(s).Some?
    ensures Decides(s, epoch, accepts, OnPopState(d, s.popped[0], epoch, accepts))
  {
    assert Live(s, s.pos);
    if Here(s).value == s.current.value.index {
      CurrentPopEndsRepair(d, s.popped[0], epoch, accepts);
    } else {
      OtherPopDecides(s, d, epoch, accepts);
    }
  }

  lemma CurrentPopEndsRepair(d: State, h: HistoryState, epoch: int, accepts: bool)
    requires d.pos < |d.stack| && CurrentInv(d) && !d.disposed
    requires ReadIndex(d, h) == Here(d) == Some(d.current.value.index)
    ensures OnPopState(d, h, epoch, accepts) == d.(repairing := false)
  {
  }

  lemma OtherPopDecides(s: State, d: State, epoch: int, accepts: bool)
    requires s.pos < |s.stack| && Active(s) && s.popped != [] && s.current.Some? && s.current.value.route.Some?
    requires d == s.(popped := s.popped[1..])
    requires ReadIndex(s, s.popped[0]) == Here(s) && Here(s).Some? && Here(s).value != s.current.value.index
    ensures Decides(s, epoch, accepts, OnPopState(d, s.popped[0], epoch, accepts))
  {
  }

  /** A history state is read exactly when it is the latest written for an index still in the ledger. */
  lemma ReadsTheLatest(s: State, h: HistoryState, index: nat)
    ensures ReadIndex(s, h) == Some(index) <==>
            index in s.entries && index in s.tokens && h == Ours(index, s.tokens[index])
  {
  }

  /** After disposal nothing is restored, recorded or requested. */
  lemma DisposedIsInert(s: State, e: Event)
    requires s.pos < |s.stack| && s.disposed
    ensures var t := Step(s, e);
      && t.restored == s.restored && t.current == s.current && t.stack == s.stack && t.disposed
      && |t.gos| <= |s.gos|
  {
  }

  // ---- where the browser comes to rest ----

  predicate Active(s: State) { s.initialized && !s.disposed }

  predicate AtCurrent(s: State) { CurrentIsAt(s, s.pos) }

  /**
   The shown entry is the current one, or its popstate is the last waiting, or the last traversal asked for leads
   there.
   */
  predicate Heading(s: State) {
    || AtCurrent(s)
    || (s.popped != [] && s.pos < |s.stack| && s.popped[|s.popped| - 1] == s.stack[s.pos])
    || (s.gos != [] && CurrentIsAt(s, s.pos + s.gos[|s.gos| - 1]))
  }

  lemma PushArrives(s: State, route: Route, epoch: int)
    requires s.pos < |s.stack|
    ensures AtCurrent(Push(s, route, epoch))
  {
  }

  lemma RouteEffectHeads(s: State, epoch: int, route: Route)
    requires Inv(s) && !s.disposed && (s.initialized ==> Heading(s))
    ensures Heading(OnRouteEffect(s, epoch, route))
    ensures s.initialized && !Unchanged(s, epoch, route) ==> AtCurrent(OnRouteEffect(s, epoch, route))
  {
    if !s.initialized {
      PushArrives(Mark(s.(initialized := true), Entry(0, epoch, None)), route, epoch);
    } else if !Unchanged(s, epoch, route) {
      var t := if s.current.value.epoch != epoch then Mark(s, BoundaryEntry(s, epoch)) else s;
      PushArrives(t.(repairing := false), route, epoch);
    }
  }

  /** Handling a popstate of the shown entry leaves the browser at the current entry or asks for the way there. */
  lemma PopStateHeads(s: State, h: HistoryState, epoch: int, accepts: bool)
    requires s.pos < |s.stack| && !s.disposed && Running(s) && ReadIndex(s, h) == Here(s)
    ensures var t := OnPopState(s, h, epoch, accepts);
      AtCurrent(t) || (t.gos != [] && CurrentIsAt(t, t.pos + t.gos[|t.gos| - 1]))
  {
    if Here(s).None? {
      RepairUnknownRestarts(s);
    } else {
      assert Live(s, s.pos);
    }
  }

  /** A popstate that shows another entry is ignored. */
  lemma StalePopStateIsIgnored(s: State, h: HistoryState, epoch: int, accepts: bool)
    requires s.pos < |s.stack| && ReadIndex(s, h) != Here(s)
    ensures OnPopState(s, h, epoch, accepts) == s
  {
  }

  lemma HeadingAfterStale(s: State)
    requires s.pos < |s.stack| && s.popped != [] && ReadIndex(s, s.popped[0]) != Here(s) && Heading(s)
    ensures Heading(s.(popped := s.popped[1..]))
  {
  }

  lemma HandledPopHeads(s: State, epoch: int, accepts: bool)
    requires Inv(s) && Active(s) && Heading(s)
    ensures Heading(Step(s, PopState(epoch, accepts)))
  {
    if s.popped != [] {
      var d, h := s.(popped := s.popped[1..]), s.popped[0];
      if ReadIndex(s, h) == Here(s) {
        TimelyPopHeads(s, d, h, epoch, accepts);
      } else {
        StalePopStateIsIgnored(d, h, epoch, accepts);
        HeadingAfterStale(s);
      }
    }
  }

  lemma TimelyPopHeads(s: State, d: State, h: HistoryState, epoch: int, accepts: bool)
    requires Inv(s) && Active(s) && s.popped != [] && d == s.(popped := s.popped[1..]) && ReadIndex(s, h) == Here(s)
    ensures Heading(OnPopState(d, h, epoch, accepts))
  {
    SamePlaces(s, d);
    PopStateHeads(d, h, epoch, accepts);
    HeadedByGo(OnPopState(d, h, epoch, accepts));
  }

  lemma HeadedByGo(t: State)
    requires AtCurrent(t) || (t.gos != [] && CurrentIsAt(t, t.pos + t.gos[|t.gos| - 1]))
    ensures Heading(t)
  {
  }

  lemma StepHeads(s: State, e: Event)
    requires Inv(s) && !s.disposed && (s.initialized ==> Heading(s))
    ensures Active(Step(s, e)) ==> Heading(Step(s, e))
  {
    match e
    case RouteEffect(epoch, route) => RouteEffectHeads(s, epoch, route);
    case PopState(epoch, accepts) => if s.initialized { HandledPopHeads(s, epoch, accepts); }
    case Land(_) =>
    case LandGo =>
    case Dispose =>
  }

  lemma StaysDisposed(s: State, e: Event)
    requires s.pos < |s.stack| && s.disposed
    ensures Step(s, e).disposed
  {
  }

  lemma {:induction false} EveryRunHeads(stack: seq<HistoryState>, pos: nat, events: seq<Event>)
    requires Fresh(stack, pos)
    ensures Active(Run(Init(stack, pos), events)) ==> Heading(Run(Init(stack, pos), events))
    decreases |events|
  {
    if events != [] {
      var s, e := Run(Init(stack, pos), events[..|events| - 1]), events[|events| - 1];
      EveryRunHeads(stack, pos, events[..|events| - 1]);
      EveryRun(stack, pos, events[..|events| - 1]);
      if s.disposed { StaysDisposed(s, e); } else { StepHeads(s, e); }
    }
  }

  /** Whenever no traversal and no popstate is outstanding, the browser shows the controller's current entry. */
  lemma RestsAtCurrent(stack: seq<HistoryState>, pos: nat, events: seq<Event>)
    requires Fresh(stack, pos)
    requires var s := Run(Init(stack, pos), events); Active(s) && s.gos == [] && s.popped == []
    ensures AtCurrent(Run(Init(stack, pos), events))
  {
    EveryRunHeads(stack, pos, events);
  }

  // ---- where a requested traversal lands ----

  /** How far the current entry is from the one shown. */
  function Offset(s: State): int
    requires s.current.Some?
  {
    s.base + s.current.value.index - s.pos
  }

  predicate InStack(s: State, p: int) { 0 <= p < |s.stack| }

  /** How far an event moves the browser along entries it does not write. */
  function Moved(s: State, e: Event): int {
    match e
    case Land(delta) => if InStack(s, s.pos + delta) then delta else 0
    case LandGo => if s.gos != [] && InStack(s, s.pos + s.gos[0]) then s.gos[0] else 0
    case _ => 0
  }

  /** The event makes the shown entry current: a recorded route change, an accepted restore, or a take-over. */
  predicate Anchors(s: State, e: Event)
    requires s.pos < |s.stack|
  {
    match e
    case RouteEffect(epoch, route) => !Unchanged(s, epoch, route)
    case PopState(_, accepts) => TakesOver(s, e) || (accepts && Step(s, e).restored != s.restored)
    case _ => false
  }

  /** The popstate handled finds an entry the ledger cannot read. */
  predicate TakesOver(s: State, e: Event)
    requires s.pos < |s.stack|
  {
    e.PopState? && Active(s) && s.popped != [] && ReadIndex(s, s.popped[0]).None? && Here(s).None?
  }

  lemma CurrentIsOnce(s: State, p: int)
    requires Running(s) && InStack(s, p)
    ensures CurrentIsAt(s, p) <==> p == s.base + s.current.value.index
  {
    if CurrentIsAt(s, p) { assert Live(s, p); }
  }

  lemma AtCurrentIff(s: State)
    requires s.pos < |s.stack| && Running(s)
    ensures AtCurrent(s) <==> Offset(s) == 0
  {
    CurrentIsOnce(s, s.pos);
  }

  /** A popstate that finds the shown entry readable makes it current, or leaves the current entry where it was. */
  lemma ReadablePopOffset(s: State, h: HistoryState, epoch: int, accepts: bool)
    requires s.pos < |s.stack| && !s.disposed && Running(s) && ReadIndex(s, h) == Here(s) && Here(s).Some?
    ensures var t := OnPopState(s, h, epoch, accepts);
      && t.current.Some? && t.base == s.base && t.pos == s.pos
      && Offset(t) == if accepts && t.restored != s.restored then 0 else Offset(s)
  {
    assert Live(s, s.pos);
  }

  lemma TakeOverOffset(s: State, h: HistoryState, epoch: int, accepts: bool)
    requires s.pos < |s.stack| && !s.disposed && Running(s) && ReadIndex(s, h).None? && Here(s).None?
    ensures var t := OnPopState(s, h, epoch, accepts);
      Running(t) && Offset(t) == 0 && t.restored == s.restored && Lockstep(t)
  {
    RepairUnknownKeeps(s);
    RepairUnknownRestarts(s);
    AtCurrentIff(Repair(s, None));
  }

  lemma PopStateOffset(s: State, epoch: int, accepts: bool)
    requires Inv(s) && Active(s)
    ensures var e := PopState(epoch, accepts);
      && Step(s, e).current.Some?
      && Offset(Step(s, e)) == if Anchors(s, e) then 0 else Offset(s)
  {
    if s.popped != [] {
      var d, h := s.(popped := s.popped[1..]), s.popped[0];
      SamePlaces(s, d);
      if ReadIndex(d, h) != Here(d) {
        StalePopStateIsIgnored(d, h, epoch, accepts);
      } else if Here(d).None? {
        TakeOverOffset(d, h, epoch, accepts);
      } else {
        ReadablePopOffset(d, h, epoch, accepts);
      }
    }
  }

  lemma RouteEffectOffset(s: State, epoch: int, route: Route)
    requires Inv(s) && Active(s)
    ensures var e := RouteEffect(epoch, route);
      Offset(Step(s, e)) == if Anchors(s, e) then 0 else Offset(s)
  {
    var e := RouteEffect(epoch, route);
    StepKeeps(s, e);
    if !Unchanged(s, epoch, route) {
      var t := if s.current.value.epoch != epoch then Mark(s, BoundaryEntry(s, epoch)) else s;
      PushArrives(t.(repairing := false), route, epoch);
      AtCurrentIff(Step(s, e));
    }
  }

  /** Each event either anchors the current entry to the shown one or shifts it by the distance moved. */
  lemma OffsetStep(s: State, e: Event)
    requires Inv(s) && Active(s) && !e.Dispose?
    ensures Inv(Step(s, e)) && Active(Step(s, e))
    ensures Step(s, e).current.Some?
    ensures Offset(Step(s, e)) == if Anchors(s, e) then 0 else Offset(s) - Moved(s, e)
  {
    StepKeeps(s, e);
    StaysActive(s, e);
    match e
    case RouteEffect(epoch, route) => RouteEffectOffset(s, epoch, route);
    case PopState(epoch, accepts) => PopStateOffset(s, epoch, accepts);
    case Land(delta) => LandOffset(s, delta);
    case LandGo => LandGoOffset(s);
    case Dispose =>
  }

  lemma StaysActive(s: State, e: Event)
    requires Inv(s) && Active(s) && !e.Dispose?
    ensures Active(Step(s, e))
  {
  }

  lemma LandOffset(s: State, delta: int)
    requires s.pos < |s.stack| && s.current.Some?
    ensures Step(s, Land(delta)).current.Some? && Offset(Step(s, Land(delta))) == Offset(s) - Moved(s, Land(delta))
  {
    TraverseOffset(s, delta);
  }

  lemma LandGoOffset(s: State)
    requires s.pos < |s.stack| && s.current.Some?
    ensures Step(s, LandGo).current.Some? && Offset(Step(s, LandGo)) == Offset(s) - Moved(s, LandGo)
  {
    if s.gos != [] { TraverseOffset(s.(gos := s.gos[1..]), s.gos[0]); }
  }

  lemma TraverseOffset(s: State, delta: int)
    requires s.pos < |s.stack| && s.current.Some?
    ensures var t := Traverse(s, delta);
      && t.current == s.current && t.initialized == s.initialized && t.disposed == s.disposed
      && Offset(t) == Offset(s) - if InStack(s, s.pos + delta) then delta else 0
  {
  }

  /** Whether some event since s anchored the current entry anew. */
  predicate Anchored(s: State, events: seq<Event>)
    requires s.pos < |s.stack|
    decreases |events|
  {
    events != [] &&
    (Anchors(Run(s, events[..|events| - 1]), events[|events| - 1]) || Anchored(s, events[..|events| - 1]))
  }

  /** How far the browser has moved since the last anchoring, or since s. */
  function Displaced(s: State, events: seq<Event>): int
    requires s.pos < |s.stack|
    decreases |events|
  {
    if events == [] then 0
    else
      var t, e := Run(s, events[..|events| - 1]), events[|events| - 1];
      if Anchors(t, e) then 0 else Displaced(s, events[..|events| - 1]) + Moved(t, e)
  }

  lemma {:induction false} OffsetRun(s: State, events: seq<Event>)
    requires Inv(s) && Active(s) && Dispose !in events
    ensures var t := Run(s, events);
      && Inv(t) && Active(t) && t.current.Some?
      && Offset(t) == (if Anchored(s, events) then 0 else Offset(s)) - Displaced(s, events)
    decreases |events|
  {
    if events != [] {
      var front, e := events[..|events| - 1], events[|events| - 1];
      assert e in events && forall x :: x in front ==> x in events;
      OffsetRun(s, front);
      OffsetStep(Run(s, front), e);
    }
  }

  function Landings(events: seq<Event>): nat
    decreases |events|
  {
    if events == [] then 0
    else Landings(events[..|events| - 1]) + if events[|events| - 1].LandGo? then 1 else 0
  }

  predicate Prefix(a: seq<int>, b: seq<int>) { |a| <= |b| && b[..|a|] == a }

  lemma GosStep(s: State, e: Event)
    requires s.pos < |s.stack|
    ensures e.LandGo? && s.gos != [] ==> Step(s, e).gos == s.gos[1..]
    ensures !e.LandGo? ==> Prefix(s.gos, Step(s, e).gos)
  {
    match e
    case RouteEffect(epoch, route) => RouteEffectGos(s, epoch, route);
    case PopState(epoch, accepts) =>
      if s.popped != [] { PopStateGos(s.(popped := s.popped[1..]), s.popped[0], epoch, accepts); }
    case Land(_) =>
    case LandGo =>
    case Dispose =>
  }

  lemma PopStateGos(s: State, h: HistoryState, epoch: int, accepts: bool)
    requires s.pos < |s.stack|
    ensures Prefix(s.gos, OnPopState(s, h, epoch, accepts).gos)
  {
  }

  /** Requested traversals are made in the order they were requested. */
  lemma {:induction false} GosQueue(s: State, events: seq<Event>)
    requires s.pos < |s.stack| && Landings(events) <= |s.gos|
    ensures Prefix(s.gos[Landings(events)..], Run(s, events).gos)
    decreases |events|
  {
    if events != [] {
      var front, e := events[..|events| - 1], events[|events| - 1];
      var k := Landings(front);
      GosQueue(s, front);
      GosStep(Run(s, front), e);
      if e.LandGo? {
        assert s.gos[k..][1..] == s.gos[k + 1..];
        assert Run(s, front).gos[..|s.gos[k..]|][1..] == Run(s, front).gos[1..][..|s.gos[k + 1..]|];
      } else {
        PrefixOfPrefix(s.gos[k..], Run(s, front).gos, Run(s, events).gos);
      }
    }
  }

  lemma PrefixOfPrefix(a: seq<int>, b: seq<int>, c: seq<int>)
    requires Prefix(a, b) && Prefix(b, c)
    ensures Prefix(a, c)
  {
    assert c[..|a|] == c[..|b|][..|a|];
  }

  /** A traversal of distance d ends at the current entry: it leads there, or leads nowhere while it is shown. */
  predicate Hits(s: State, d: int) {
    s.current.Some? && if InStack(s, s.pos + d) then Offset(s) == d else Offset(s) == 0
  }

  lemma LandGoHitsIff(s: State)
    requires Inv(s) && Active(s) && s.gos != []
    ensures AtCurrent(Step(s, LandGo)) <==> Hits(s, s.gos[0])
  {
    StepKeeps(s, LandGo);
    AtCurrentIff(Step(s, LandGo));
    OffsetStep(s, LandGo);
  }

  /**
   After the events the traversal d is the next to land, and it ends at the current entry if and only if it
   hits: the offset is d less what the browser was moved, or just the latter if that entry was anchored anew.
   */
  predicate LandsByOffset(s: State, events: seq<Event>, d: int)
    requires s.pos < |s.stack|
  {
    var t := Run(s, events);
    && t.current.Some? && t.gos != [] && t.gos[0] == d
    && (AtCurrent(Step(t, LandGo)) <==> Hits(t, d))
    && Offset(t) == (if Anchored(s, events) then 0 else d) - Displaced(s, events)
    && (!Anchored(s, events) && Displaced(s, events) == 0 ==> Hits(t, d))
  }

  /**
   Between the request of a traversal to the current entry and its landing anything may happen: route
   changes, popstates, further traversals by the user and by the controller.
   */
  lemma RepairLandsIff(s: State, events: seq<Event>)
    requires Inv(s) && Active(s) && s.gos != [] && CurrentIsAt(s, s.pos + s.gos[|s.gos| - 1])
    requires Dispose !in events && Landings(events) == |s.gos| - 1
    ensures LandsByOffset(s, events, s.gos[|s.gos| - 1])
  {
    var t, d := Run(s, events), s.gos[|s.gos| - 1];
    CurrentIsOnce(s, s.pos + d);
    OffsetRun(s, events);
    GosQueue(s, events);
    assert s.gos[|s.gos| - 1..] == [d];
    assert t.gos[..1] == [d];
    LandGoHitsIff(t);
    CurrentInStack(t);
  }

  lemma CurrentInStack(s: State)
    requires Running(s)
    ensures InStack(s, s.pos + Offset(s))
  {
  }

  /** With the current entry shown, popstates neither move nor restore anything, and the last of them ends a repair. */
  lemma {:induction false} PopStatesSettle(s: State, events: seq<Event>)
    requires Inv(s) && Active(s) && AtCurrent(s) && forall e :: e in events ==> e.PopState?
    ensures SettledTo(s, Run(s, events), |events|)
    decreases |events|
  {
    if events != [] {
      var front, e := events[..|events| - 1], events[|events| - 1];
      assert e in events && forall x :: x in front ==> x in events;
      PopStatesSettle(s, front);
      SettleOne(s, Run(s, front), |front|, e);
    }
  }

  /** t is s with n popstates handled and nothing else changed but, once the shown entry's own was, the repair ended. */
  predicate SettledTo(s: State, t: State, n: nat)
    requires s.pos < |s.stack|
  {
    && t == s.(popped := t.popped, repairing := t.repairing)
    && t.popped == s.popped[if n < |s.popped| then n else |s.popped|..]
    && (s.popped != [] && s.popped[|s.popped| - 1] == s.stack[s.pos] && n >= |s.popped| ==> !t.repairing)
  }

  lemma SettleOne(s: State, t: State, n: nat, e: Event)
    requires Inv(s) && Active(s) && AtCurrent(s) && e.PopState? && SettledTo(s, t, n)
    ensures SettledTo(s, Step(t, e), n + 1)
  {
    PopStateSettles(t, e);
    if n < |s.popped| { assert t.popped[0] == s.popped[n] && t.popped[1..] == s.popped[n + 1..]; }
  }

  lemma PopStateSettles(s: State, e: Event)
    requires s.pos < |s.stack| && AtCurrent(s) && e.PopState?
    requires s.disposed || (s.current.value.index in s.entries && s.entries[s.current.value.index] == s.current.value)
    ensures var t := Step(s, e);
      && t == s.(popped := t.popped, repairing := t.repairing)
      && t.popped == (if s.popped == [] then [] else s.popped[1..])
      && (t.repairing ==> s.repairing)
      && (!s.disposed && s.popped != [] && s.popped[0] == s.stack[s.pos] ==> !t.repairing)
  {
  }

  /**
   Whenever that traversal lands on the current entry, the popstates then waiting, its own last, end the
   repair with the browser there, no restore called and the current entry unchanged.
   */
  lemma RepairCompletes(s: State, events: seq<Event>, pops: seq<Event>)
    requires Inv(s) && Active(s) && s.gos != [] && CurrentIsAt(s, s.pos + s.gos[|s.gos| - 1])
    requires Dispose !in events && Landings(events) == |s.gos| - 1 && Hits(Run(s, events), s.gos[|s.gos| - 1])
    requires OnlyPops(pops) && |pops| >= |Step(Run(s, events), LandGo).popped|
    ensures Completes(Run(s, events), s.gos[|s.gos| - 1], pops)
  {
    HitsLand(s, events);
    LandedSettles(Run(s, events), pops);
  }

  ghost predicate OnlyPops(pops: seq<Event>) { forall e :: e in pops ==> e.PopState? }

  /** The repair lands, its popstates are handled, and the controller and the browser rest at the current entry. */
  predicate Completes(t: State, d: int, pops: seq<Event>)
    requires t.pos < |t.stack|
  {
    var u := Run(Step(t, LandGo), pops);
    && AtCurrent(u) && u.popped == [] && u.current == t.current && u.restored == t.restored
    && (InStack(t, t.pos + d) && d != 0 ==> !u.repairing)
  }

  lemma HitsLand(s: State, events: seq<Event>)
    requires Inv(s) && Active(s) && s.gos != [] && CurrentIsAt(s, s.pos + s.gos[|s.gos| - 1])
    requires Dispose !in events && Landings(events) == |s.gos| - 1 && Hits(Run(s, events), s.gos[|s.gos| - 1])
    ensures var t := Run(s, events);
      Inv(t) && Active(t) && t.gos != [] && t.gos[0] == s.gos[|s.gos| - 1] && AtCurrent(Step(t, LandGo))
  {
    RepairLandsIff(s, events);
    OffsetRun(s, events);
  }

  lemma LandedSettles(t: State, pops: seq<Event>)
    requires Inv(t) && Active(t) && t.gos != [] && AtCurrent(Step(t, LandGo))
    requires OnlyPops(pops) && |pops| >= |Step(t, LandGo).popped|
    ensures Completes(t, t.gos[0], pops)
  {
    StepKeeps(t, LandGo);
    LandGoShows(t);
    SettlesFrom(Step(t, LandGo), pops);
  }

  lemma SettlesFrom(m: State, pops: seq<Event>)
    requires Inv(m) && Active(m) && AtCurrent(m) && OnlyPops(pops) && |pops| >= |m.popped|
    ensures var u := Run(m, pops);
      && AtCurrent(u) && u.popped == [] && u.current == m.current && u.restored == m.restored
      && (m.popped != [] && m.popped[|m.popped| - 1] == m.stack[m.pos] ==> !u.repairing)
  {
    PopStatesSettle(m, pops);
    SettledAll(m, Run(m, pops), pops);
  }

  /** A traversal raises the popstate of the entry it ends at, and changes nothing else of the controller. */
  lemma LandGoShows(t: State)
    requires t.pos < |t.stack| && t.gos != []
    ensures var m := Step(t, LandGo);
      && m.current == t.current && m.restored == t.restored
      && m.initialized == t.initialized && m.disposed == t.disposed
      && (InStack(t, t.pos + t.gos[0]) && t.gos[0] != 0 ==>
          m.popped != [] && m.popped[|m.popped| - 1] == m.stack[m.pos])
  {
  }

  lemma SettledAll(m: State, u: State, pops: seq<Event>)
    requires m.pos < |m.stack| && |pops| >= |m.popped| && AtCurrent(m)
    requires SettledTo(m, u, |pops|)
    ensures AtCurrent(u) && u.popped == [] && u.current == m.current && u.restored == m.restored
  {
  }

  /** The same for any traversal requested in any run: from its request on, wherever the controller stands. */
  lemma RequestedRepairLands(stack: seq<HistoryState>, pos: nat, before: seq<Event>, request: Event, after: seq<Event>)
    requires Fresh(stack, pos) && Active(Run(Init(stack, pos), before))
    requires Requests(Run(Init(stack, pos), before), request, after)
    ensures var s := Step(Run(Init(stack, pos), before), request); LandsByOffset(s, after, s.gos[|s.gos| - 1])
  {
    EveryRun(stack, pos, before);
    RequestLands(Run(Init(stack, pos), before), request, after);
  }

  /** The event asks for a traversal, and the events after it let every earlier one land. */
  predicate Requests(s: State, request: Event, after: seq<Event>)
    requires s.pos < |s.stack|
  {
    !request.Dispose? && Dispose !in after && |Step(s, request).gos| == |s.gos| + 1 && Landings(after) == |s.gos|
  }

  lemma RequestLands(s: State, request: Event, after: seq<Event>)
    requires Inv(s) && Active(s) && Requests(s, request, after)
    ensures var t := Step(s, request); LandsByOffset(t, after, t.gos[|t.gos| - 1])
  {
    StaysActive(s, request);
    StepKeeps(s, request);
    RequestAims(s, request);
    RepairLandsIff(Step(s, request), after);
  }

  lemma RequestAims(s: State, e: Event)
    requires Inv(s) && Active(s) && !e.Dispose? && |Step(s, e).gos| == |s.gos| + 1
    ensures var t := Step(s, e); CurrentIsAt(t, t.pos + t.gos[|t.gos| - 1])
  {
    if !e.LandGo? { StepAimsAtCurrent(s, e); }
  }

  /** The late landing of a repair d keeps a route change recorded after its request if and only if d was forward. */
  lemma StaleRepairHarmlessIffForward(s: State, epoch: int, route: Route)
    requires Inv(s) && Active(s) && |s.gos| == 1 && s.gos[0] != 0 && CurrentIsAt(s, s.pos + s.gos[0])
    requires !Unchanged(s, epoch, route)
    ensures var t := Step(s, RouteEffect(epoch, route));
      && AtCurrent(t) && t.gos == s.gos
      && (AtCurrent(Step(t, LandGo)) <==> s.gos[0] > 0)
  {
    var e := RouteEffect(epoch, route);
    var t := Step(s, e);
    OffsetStep(s, e);
    AtCurrentIff(t);
    RecordedIsLast(s, epoch, route);
    LandGoHitsIff(t);
  }

  /**
   A second traversal by the user while a repair d is outstanding: the repair still ends at the current entry if
   and only if the user went there and from there d leads out of the history.
   */
  lemma RepairMissesIfUserMoves(s: State, delta: int)
    requires Inv(s) && Active(s) && |s.gos| == 1 && CurrentIsAt(s, s.pos + s.gos[0])
    requires delta != 0 && InStack(s, s.pos + delta)
    ensures AtCurrent(Step(Step(s, Land(delta)), LandGo))
            <==> delta == s.gos[0] && !InStack(s, s.pos + delta + s.gos[0])
  {
    CurrentIsOnce(s, s.pos + s.gos[0]);
    OffsetStep(s, Land(delta));
    LandGoHitsIff(Step(s, Land(delta)));
  }

  lemma RecordedIsLast(s: State, epoch: int, route: Route)
    requires s.pos < |s.stack| && Active(s) && !Unchanged(s, epoch, route)
    ensures var t := OnRouteEffect(s, epoch, route); t.pos == s.pos + 1 && |t.stack| == t.pos + 1 && t.gos == s.gos
  {
  }

  // ---- a late repair undoes a route change ----

  /** A running controller whose index 0 is the browser's first entry. */
  ghost predicate Shape(s: State, routes: seq<Route>, current: nat, stack: seq<HistoryState>, pos: nat, gos: seq<int>,
                  popped: seq<HistoryState>, repairing: bool)
  {
    && Active(s) && s.base == 0 && s.stack == stack && s.pos == pos < |stack| && s.gos == gos && s.popped == popped
    && s.repairing == repairing && |stack| == |routes| + 1 && s.nextToken == |stack|
    && (forall i :: i in s.entries <==> 0 <= i < |stack|) && (forall i :: i in s.tokens <==> 0 <= i < |stack|)
    && s.entries[0] == Entry(0, 0, None)
    && (forall i :: 0 < i < |stack| ==> s.entries[i] == Entry(i, 0, Some(routes[i - 1])))
    && (forall i :: 0 <= i < |stack| ==> s.tokens[i] == i + 1 && stack[i] == Ours(i, i + 1))
    && 0 < current < |stack| && s.current == Some(s.entries[current])
  }

  const A: HistoryState := Ours(1, 2)
  const B: HistoryState := Ours(2, 3)
  const C: HistoryState := Ours(3, 4)
  const BOTTOM: HistoryState := Ours(0, 1)

  lemma VisitFirst(a: Route)
    ensures Shape(Step(Init([Foreign(0)], 0), RouteEffect(0, a)), [a], 1, [BOTTOM, A], 1, [], [], false)
    ensures Step(Init([Foreign(0)], 0), RouteEffect(0, a)).restored == []
  {
    var m := Mark(Init([Foreign(0)], 0).(initialized := true), Entry(0, 0, None));
    assert m.stack == [BOTTOM];
    PushOnTop(m, 1, a);
    FirstShape(m, a);
  }

  lemma FirstShape(m: State, a: Route)
    requires Active(m) && m.base == 0 && m.stack == [BOTTOM] && m.nextToken == 1 && m.gos == [] && m.popped == []
    requires m.entries == map[0 := Entry(0, 0, None)] && m.tokens == map[0 := 1] && !m.repairing
    ensures Shape(Appended(m, 1, a), [a], 1, [BOTTOM, A], 1, [], [], false)
  {
    assert [BOTTOM] + [A] == [BOTTOM, A];
  }

  /** Recording a new route on the topmost entry. */
  lemma Visit(s: State, routes: seq<Route>, current: nat, stack: seq<HistoryState>, gos: seq<int>, repairing: bool,
              r: Route)
    requires stack != [] && Shape(s, routes, current, stack, |stack| - 1, gos, [], repairing)
             && routes[current - 1] != r
    ensures var n := |stack|;
      Shape(Step(s, RouteEffect(0, r)), routes + [r], n, stack + [Ours(n, n + 1)], n, gos, [], false)
    ensures Step(s, RouteEffect(0, r)).restored == s.restored
  {
    var n, u := |stack|, s.(repairing := false);
    assert stack[n - 1] == Ours(n - 1, n) && Here(u) == Some(n - 1);
    assert !Unchanged(s, 0, r);
    PushOnTop(u, n, r);
    Extended(s, routes, current, stack, gos, repairing, r);
  }

  lemma PushOnTop(s: State, n: nat, r: Route)
    requires s.pos == n - 1 && |s.stack| == n && Here(s) == Some(n - 1) && s.base == 0 && s.nextToken == n
    requires forall i :: i in s.entries ==> i < n
    ensures Push(s, r, 0) == Appended(s, n, r)
  {
    assert Below(s.entries, n) == s.entries;
    assert s.stack[..n] == s.stack;
  }

  function Appended(s: State, n: nat, r: Route): State {
    var entry := Entry(n, 0, Some(r));
    s.(entries := s.entries[n := entry], tokens := s.tokens[n := n + 1], nextToken := n + 1, current := Some(entry),
       written := s.written[n + 1 := entry], stack := s.stack + [Ours(n, n + 1)], pos := n)
  }

  lemma Extended(s: State, routes: seq<Route>, current: nat, stack: seq<HistoryState>, gos: seq<int>, repairing: bool,
                 r: Route)
    requires stack != [] && Shape(s, routes, current, stack, |stack| - 1, gos, [], repairing)
    ensures var n := |stack|;
      Shape(Appended(s.(repairing := false), n, r), routes + [r], n, stack + [Ours(n, n + 1)], n, gos, [], false)
  {
  }

  lemma Go(s: State, routes: seq<Route>, current: nat, stack: seq<HistoryState>, pos: nat, gos: seq<int>,
           repairing: bool, delta: int)
    requires Shape(s, routes, current, stack, pos, gos, [], repairing) && delta != 0 && 0 <= pos + delta < |stack|
    ensures Shape(Step(s, Land(delta)), routes, current, stack, pos + delta, gos, [stack[pos + delta]], repairing)
    ensures Step(s, Land(delta)).restored == s.restored
    ensures gos == [delta] ==>
      Shape(Step(s, LandGo), routes, current, stack, pos + delta, [], [stack[pos + delta]], repairing)
      && Step(s, LandGo).restored == s.restored
  {
  }

  /** The popstate of another entry of the project asks for its route. */
  lemma Ask(s: State, routes: seq<Route>, current: nat, stack: seq<HistoryState>, pos: nat, accepts: bool)
    requires Shape(s, routes, current, stack, pos, [], if pos < |stack| then [stack[pos]] else [], false)
    requires 0 < pos != current
    ensures var t := Step(s, PopState(0, accepts));
      && t.restored == s.restored + [Restore(routes[pos - 1], pos + 1, 0)]
      && (accepts ==> Shape(t, routes, pos, stack, pos, [], [], false))
      && (!accepts ==> Shape(t, routes, current, stack, pos, [current - pos], [], true))
  {
    assert s.popped[1..] == [];
    assert Here(s) == Some(pos);
  }

  /** The user goes from a to b and back. */
  function Leaving(a: Route, b: Route): seq<Event> {
    [RouteEffect(0, a), RouteEffect(0, b), Land(-1), PopState(0, true)]
  }

  /** The user goes forward to b again, is refused, and goes to c. */
  function Returning(c: Route): seq<Event> {
    [Land(1), PopState(0, false), RouteEffect(0, c)]
  }

  /** The repair of that refusal lands. */
  const LANDING: seq<Event> := [LandGo, PopState(0, true)]

  lemma ShapeRests(s: State, routes: seq<Route>, pos: nat, stack: seq<HistoryState>, gos: seq<int>)
    requires Shape(s, routes, pos, stack, pos, gos, [], false)
    ensures AtCurrent(s) && s.current.value.route == Some(routes[pos - 1])
  {
  }

  lemma Leaves(a: Route, b: Route)
    requires a != b
    ensures var s := Run(Init([Foreign(0)], 0), Leaving(a, b));
      Shape(s, [a, b], 1, [BOTTOM, A, B], 1, [], [], false)
  {
    var s0 := Init([Foreign(0)], 0);
    VisitFirst(a);
    RunSnoc(s0, [], RouteEffect(0, a));
    assert [] + [RouteEffect(0, a)] == [RouteEffect(0, a)];
    LeavesFrom(s0, [RouteEffect(0, a)], a, b);
    assert [RouteEffect(0, a)] + [RouteEffect(0, b)] + [Land(-1)] + [PopState(0, true)] == Leaving(a, b);
  }

  lemma LeavesFrom(s: State, xs: seq<Event>, a: Route, b: Route)
    requires s.pos < |s.stack|
    requires a != b && Shape(Run(s, xs), [a], 1, [BOTTOM, A], 1, [], [], false)
    ensures Shape(Run(s, xs + [RouteEffect(0, b)] + [Land(-1)] + [PopState(0, true)]),
                  [a, b], 1, [BOTTOM, A, B], 1, [], [], false)
  {
    VisitSecond(s, xs, a, b);
    LeavesSecond(s, xs + [RouteEffect(0, b)], a, b);
  }

  lemma LeavesSecond(s: State, xs: seq<Event>, a: Route, b: Route)
    requires s.pos < |s.stack|
    requires Shape(Run(s, xs), [a, b], 2, [BOTTOM, A, B], 2, [], [], false)
    ensures Shape(Run(s, xs + [Land(-1)] + [PopState(0, true)]), [a, b], 1, [BOTTOM, A, B], 1, [], [], false)
  {
    GoIn(s, xs, [a, b], 2, [BOTTOM, A, B], 2, [], false, -1);
    AskIn(s, xs + [Land(-1)], [a, b], 2, [BOTTOM, A, B], 1, true);
  }

  lemma VisitSecond(s: State, xs: seq<Event>, a: Route, b: Route)
    requires s.pos < |s.stack|
    requires a != b && Shape(Run(s, xs), [a], 1, [BOTTOM, A], 1, [], [], false)
    ensures Shape(Run(s, xs + [RouteEffect(0, b)]), [a, b], 2, [BOTTOM, A, B], 2, [], [], false)
  {
    RunSnoc(s, xs, RouteEffect(0, b));
    VisitB(Run(s, xs), a, b);
  }

  lemma VisitB(s: State, a: Route, b: Route)
    requires a != b && Shape(s, [a], 1, [BOTTOM, A], 1, [], [], false)
    ensures Shape(Step(s, RouteEffect(0, b)), [a, b], 2, [BOTTOM, A, B], 2, [], [], false)
  {
    Visit(s, [a], 1, [BOTTOM, A], [], false, b);
    assert [a] + [b] == [a, b] && [BOTTOM, A] + [B] == [BOTTOM, A, B];
  }

  lemma VisitThird(s: State, xs: seq<Event>, a: Route, b: Route, c: Route)
    requires s.pos < |s.stack|
    requires a != c && Shape(Run(s, xs), [a, b], 1, [BOTTOM, A, B], 2, [-1], [], true)
    ensures Shape(Run(s, xs + [RouteEffect(0, c)]), [a, b, c], 3, [BOTTOM, A, B, C], 3, [-1], [], false)
  {
    RunSnoc(s, xs, RouteEffect(0, c));
    Visit(Run(s, xs), [a, b], 1, [BOTTOM, A, B], [-1], true, c);
    assert [a, b] + [c] == [a, b, c] && [BOTTOM, A, B] + [C] == [BOTTOM, A, B, C];
  }

  lemma GoIn(s: State, xs: seq<Event>, routes: seq<Route>, current: nat, stack: seq<HistoryState>, pos: nat,
             gos: seq<int>, repairing: bool, delta: int)
    requires s.pos < |s.stack| && Shape(Run(s, xs), routes, current, stack, pos, gos, [], repairing)
    requires delta != 0 && 0 <= pos + delta < |stack|
    ensures Shape(Run(s, xs + [Land(delta)]), routes, current, stack, pos + delta, gos, [stack[pos + delta]], repairing)
  {
    RunSnoc(s, xs, Land(delta));
    Go(Run(s, xs), routes, current, stack, pos, gos, repairing, delta);
  }

  lemma AskIn(s: State, xs: seq<Event>, routes: seq<Route>, current: nat, stack: seq<HistoryState>, pos: nat,
              accepts: bool)
    requires s.pos < |s.stack|
    requires Shape(Run(s, xs), routes, current, stack, pos, [], if pos < |stack| then [stack[pos]] else [], false)
    requires 0 < pos != current
    ensures var t := Run(s, xs + [PopState(0, accepts)]);
      && t.restored == Run(s, xs).restored + [Restore(routes[pos - 1], pos + 1, 0)]
      && (accepts ==> Shape(t, routes, pos, stack, pos, [], [], false))
      && (!accepts ==> Shape(t, routes, current, stack, pos, [current - pos], [], true))
  {
    RunSnoc(s, xs, PopState(0, accepts));
    Ask(Run(s, xs), routes, current, stack, pos, accepts);
  }

  lemma Returns(s: State, xs: seq<Event>, a: Route, b: Route, c: Route)
    requires s.pos < |s.stack|
    requires a != c && Shape(Run(s, xs), [a, b], 1, [BOTTOM, A, B], 1, [], [], false)
    ensures Shape(Run(s, xs + Returning(c)),
                  [a, b, c], 3, [BOTTOM, A, B, C], 3, [-1], [], false)
  {
    Refuses(s, xs, a, b);
    VisitThird(s, xs + [Land(1)] + [PopState(0, false)], a, b, c);
    ReturningIs(xs, c);
  }

  lemma LandingIs(xs: seq<Event>)
    ensures xs + [LandGo] + [PopState(0, true)] == xs + LANDING
  {
  }

  lemma ReturningIs(xs: seq<Event>, c: Route)
    ensures xs + [Land(1)] + [PopState(0, false)] + [RouteEffect(0, c)] == xs + Returning(c)
  {
  }

  lemma Refuses(s: State, xs: seq<Event>, a: Route, b: Route)
    requires s.pos < |s.stack| && Shape(Run(s, xs), [a, b], 1, [BOTTOM, A, B], 1, [], [], false)
    ensures Shape(Run(s, xs + [Land(1)] + [PopState(0, false)]), [a, b], 1, [BOTTOM, A, B], 2, [-1], [], true)
  {
    GoIn(s, xs, [a, b], 1, [BOTTOM, A, B], 1, [], false, 1);
    AskIn(s, xs + [Land(1)], [a, b], 1, [BOTTOM, A, B], 2, false);
  }

  lemma LandsLate(s: State, xs: seq<Event>, a: Route, b: Route, c: Route)
    requires s.pos < |s.stack|
    requires Shape(Run(s, xs), [a, b, c], 3, [BOTTOM, A, B, C], 3, [-1], [], false)
    ensures var t := Run(s, xs + LANDING);
      && Shape(t, [a, b, c], 2, [BOTTOM, A, B, C], 2, [], [], false)
      && t.restored == Run(s, xs).restored + [Restore(b, 3, 0)]
  {
    RunSnoc(s, xs, LandGo);
    Go(Run(s, xs), [a, b, c], 3, [BOTTOM, A, B, C], 3, [-1], false, -1);
    AskIn(s, xs + [LandGo], [a, b, c], 3, [BOTTOM, A, B, C], 2, true);
    LandingIs(xs);
  }

  /**
   The user leaves b for a, tries to return and is refused, and goes to c before the repair of that attempt
   lands.  The repair then lands on b, restore is called for it although nobody went there, and the change
   to c is undone.
   */
  lemma LateRepairUndoesARoute(a: Route, b: Route, c: Route)
    requires a != b && a != c
    ensures var s := Run(Init([Foreign(0)], 0), Leaving(a, b) + Returning(c));
      var t := Run(Init([Foreign(0)], 0), Leaving(a, b) + Returning(c) + LANDING);
      && AtCurrent(s) && s.current.value.route == Some(c) && s.popped == [] && s.gos == [-1]
      && AtCurrent(t) && t.current.value.route == Some(b)
      && t.restored == s.restored + [Restore(b, 3, 0)]
  {
    LeavesAndReturns(a, b, c);
    LandsAndRests(Init([Foreign(0)], 0), Leaving(a, b) + Returning(c), a, b, c);
  }

  lemma LeavesAndReturns(a: Route, b: Route, c: Route)
    requires a != b && a != c
    ensures Shape(Run(Init([Foreign(0)], 0), Leaving(a, b) + Returning(c)),
                  [a, b, c], 3, [BOTTOM, A, B, C], 3, [-1], [], false)
  {
    Leaves(a, b);
    Returns(Init([Foreign(0)], 0), Leaving(a, b), a, b, c);
  }

  lemma LandsAndRests(s0: State, xs: seq<Event>, a: Route, b: Route, c: Route)
    requires s0.pos < |s0.stack|
    requires Shape(Run(s0, xs), [a, b, c], 3, [BOTTOM, A, B, C], 3, [-1], [], false)
    ensures var s, t := Run(s0, xs), Run(s0, xs + LANDING);
      && AtCurrent(s) && s.current.value.route == Some(c) && s.popped == [] && s.gos == [-1]
      && AtCurrent(t) && t.current.value.route == Some(b)
      && t.restored == s.restored + [Restore(b, 3, 0)]
  {
    LandsLate(s0, xs, a, b, c);
    ShapeRests(Run(s0, xs), [a, b, c], 3, [BOTTOM, A, B, C], [-1]);
    ShapeRests(Run(s0, xs + LANDING), [a, b, c], 2, [BOTTOM, A, B, C], []);
  }

  /**
   At a history entry of unknown origin the handler keeps the current route: it overwrites the
   marker there, pushes the route again, and its data is never used.
   */
  lemma UnknownEntryIsTakenOver(s: State, epoch: int, accepts: bool)
    requires Inv(s) && !s.disposed && s.initialized
    requires s.popped != [] && s.popped[0] == s.stack[s.pos] && Here(s).None?
    ensures var t := Step(s, PopState(epoch, accepts));
      TakenOver(s, t) && Lockstep(t)
  {
    var d := s.(popped := s.popped[1..]);
    SamePlaces(s, d);
    RepairUnknownRestarts(d);
  }

  predicate TakenOver(s: State, t: State) {
    && t.pos == s.pos + 1 && |t.stack| == t.pos + 1 && CurrentIsAt(t, t.pos)
    && s.current.Some? && t.current.value.route == s.current.value.route
    && t.current.value.epoch == s.current.value.epoch && t.restored == s.restored
  }

  lemma RepairUnknownRestarts(s: State)
    requires s.pos < |s.stack| && LedgerInv(s) && CurrentInv(s)
    ensures TakenOver(s, Repair(s, None)) && Lockstep(Repair(s, None))
  {
    var m := Mark(s.(entries := map[]), Entry(0, s.current.value.epoch, None));
    assert PushIndex(m) == 1;
    assert m.entries == map[0 := Entry(0, s.current.value.epoch, None)];
  }

  // ---- strict lockstep ----

  /** Every ledger entry's state is in the browser's stack, where its index says. */
  predicate Lockstep(s: State) {
    forall i :: i in s.entries ==>
      i in s.tokens && 0 <= s.base + i < |s.stack| && s.stack[s.base + i] == Ours(i, s.tokens[i])
  }

  /** A route change is recorded while the browser is at an entry the ledger cannot read. */
  predicate PushesBlind(s: State, e: Event)
    requires s.pos < |s.stack|
  {
    e.RouteEffect? && s.initialized && !s.disposed && !Unchanged(s, e.epoch, e.route) && Here(s).None?
  }

  /** Exactly those route changes break lockstep. */
  lemma LockstepUnlessPushedBlind(s: State, e: Event)
    requires Inv(s) && s.initialized && !s.disposed && Lockstep(s)
    ensures Lockstep(Step(s, e)) <==> !PushesBlind(s, e)
  {
    match e
    case RouteEffect(epoch, route) =>
      if !Unchanged(s, epoch, route) {
        if Here(s).Some? { SightedPushKeepsLockstep(s, epoch, route); }
        else { BlindPushBreaksLockstep(s, epoch, route); }
      }
    case PopState(epoch, accepts) => PopStateKeepsLockstep(s, epoch, accepts);
    case Land(delta) => TraverseKeepsLockstep(s, delta);
    case LandGo => if s.gos != [] { TraverseKeepsLockstep(s.(gos := s.gos[1..]), s.gos[0]); }
    case Dispose =>
  }

  lemma TraverseKeepsLockstep(s: State, delta: int)
    requires s.pos < |s.stack| && Lockstep(s)
    ensures Lockstep(Traverse(s, delta))
  {
  }

  lemma PopStateKeepsLockstep(s: State, epoch: int, accepts: bool)
    requires Inv(s) && s.initialized && !s.disposed && Lockstep(s)
    ensures Lockstep(Step(s, PopState(epoch, accepts)))
  {
    if s.popped != [] {
      PopStateIsHandled(s, epoch, accepts);
      TakenPopKeepsLockstep(s, s.(popped := s.popped[1..]), s.popped[0], epoch, accepts);
    }
  }

  lemma TakenPopKeepsLockstep(s: State, d: State, h: HistoryState, epoch: int, accepts: bool)
    requires Inv(s) && s.initialized && !s.disposed && Lockstep(s)
    requires s.popped != [] && d == s.(popped := s.popped[1..])
    ensures Lockstep(OnPopState(d, h, epoch, accepts))
  {
    SamePlaces(s, d);
    SamePlacesSameLockstep(s, d);
    HandledPopKeepsLockstep(d, h, epoch, accepts);
  }

  lemma PopStateIsHandled(s: State, epoch: int, accepts: bool)
    requires s.pos < |s.stack| && s.popped != []
    ensures Step(s, PopState(epoch, accepts)) == OnPopState(s.(popped := s.popped[1..]), s.popped[0], epoch, accepts)
  {
  }

  lemma SamePlacesSameLockstep(s: State, t: State)
    requires Lockstep(s) && t.entries == s.entries && t.tokens == s.tokens && t.stack == s.stack && t.base == s.base
    ensures Lockstep(t)
  {
  }

  lemma HandledPopKeepsLockstep(s: State, h: HistoryState, epoch: int, accepts: bool)
    requires Inv(s) && s.initialized && !s.disposed && Lockstep(s)
    ensures Lockstep(OnPopState(s, h, epoch, accepts))
  {
    if ReadIndex(s, h) == Here(s) && Here(s).None? {
      RepairUnknownRestarts(s);
    } else {
      ReadablePopMovesNothing(s, h, epoch, accepts);
      SamePlacesSameLockstep(s, OnPopState(s, h, epoch, accepts));
    }
  }

  lemma MarkKeepsLockstep(s: State, entry: Entry)
    requires Inv(s) && s.initialized && !s.disposed && Lockstep(s) && Here(s) == Some(entry.index)
    ensures Lockstep(Mark(s, entry)) && Mark(s, entry).base == s.base
  {
    assert Live(s, s.pos);
    MarkInPlace(s, entry);
  }

  lemma MarkInPlace(s: State, entry: Entry)
    requires s.pos < |s.stack| && Lockstep(s) && s.pos == s.base + entry.index
    ensures Lockstep(Mark(s, entry)) && Mark(s, entry).base == s.base
  {
  }

  lemma PushKeepsLockstep(s: State, route: Route, epoch: int)
    requires s.pos < |s.stack| && Lockstep(s) && Here(s).Some? && s.stack[s.pos].index == s.pos - s.base
    ensures Lockstep(Push(s, route, epoch))
  {
  }

  lemma SightedPushKeepsLockstep(s: State, epoch: int, route: Route)
    requires Inv(s) && s.initialized && !s.disposed && Lockstep(s) && Here(s).Some? && !Unchanged(s, epoch, route)
    ensures Lockstep(OnRouteEffect(s, epoch, route))
  {
    if s.current.value.epoch != epoch {
      BoundaryKeepsLockstep(s, epoch, route);
    } else {
      PlainPushKeepsLockstep(s, epoch, route);
    }
  }

  lemma PlainPushKeepsLockstep(s: State, epoch: int, route: Route)
    requires Inv(s) && s.initialized && !s.disposed && Lockstep(s) && Here(s).Some?
    ensures Lockstep(Push(s.(repairing := false), route, epoch))
  {
    assert Live(s, s.pos);
    PushKeepsLockstep(s.(repairing := false), route, epoch);
  }

  lemma BoundaryKeepsLockstep(s: State, epoch: int, route: Route)
    requires Inv(s) && s.initialized && !s.disposed && Lockstep(s) && Here(s).Some?
    ensures Lockstep(Push(Mark(s, BoundaryEntry(s, epoch)).(repairing := false), route, epoch))
  {
    var m := Mark(s, BoundaryEntry(s, epoch));
    MarkKeepsLockstep(s, BoundaryEntry(s, epoch));
    assert m.stack[m.pos] == Ours(Here(s).value, m.nextToken) && Here(s).value == s.pos - s.base by {
      assert Live(s, s.pos);
    }
    PushKeepsLockstep(m.(repairing := false), route, epoch);
  }

  lemma NothingLiveBelowBlind(s: State, p: nat)
    requires Inv(s) && s.initialized && !s.disposed && Here(s).None? && p <= s.pos
    ensures !Live(s, p)
  {
    assert !Live(s, s.pos);
  }

  lemma BlindPushBreaksLockstep(s: State, epoch: int, route: Route)
    requires Inv(s) && s.initialized && !s.disposed && Lockstep(s) && Here(s).None? && !Unchanged(s, epoch, route)
    ensures !Lockstep(OnRouteEffect(s, epoch, route))
  {
    if s.current.value.epoch == epoch {
      BlindPush(s, s.(repairing := false), route, epoch);
    } else {
      BlindPush(s, Mark(s, BoundaryEntry(s, epoch)).(repairing := false), route, epoch);
    }
  }

  /** Entry 0 now belongs at a place whose state is not readable. */
  lemma BlindPush(s: State, m: State, route: Route, epoch: int)
    requires Inv(s) && s.initialized && !s.disposed && Here(s).None? && m.pos == s.pos < |m.stack|
    requires PushIndex(m) == s.current.value.index + 1
    requires 0 in m.entries && 0 in m.tokens && m.tokens[0] == s.tokens[0]
    requires forall p :: 0 <= p < s.pos ==> m.stack[p] == s.stack[p]
    ensures !Lockstep(Push(m, route, epoch))
  {
    var t := Push(m, route, epoch);
    var i := s.current.value.index;
    assert i > 0 && t.base == s.pos - i && 0 in t.entries && t.tokens[0] == s.tokens[0];
    if 0 <= t.base {
      assert t.stack[t.base] == s.stack[t.base];
      NothingLiveBelowBlind(s, t.base);
    }
  }

  /** In a run whose route changes all happen at readable entries, ledger and browser agree entry by entry. */
  lemma {:induction false} LockstepRun(stack: seq<HistoryState>, pos: nat, events: seq<Event>)
    requires Fresh(stack, pos)
    requires forall i :: 0 <= i < |events| ==> !PushesBlind(Run(Init(stack, pos), events[..i]), events[i])
    ensures Lockstep(Run(Init(stack, pos), events))
    decreases |events|
  {
    if events != [] {
      var n := |events| - 1;
      var front := events[..n];
      forall i | 0 <= i < n ensures !PushesBlind(Run(Init(stack, pos), front[..i]), front[i]) {
        assert front[..i] == events[..i] && front[i] == events[i];
      }
      LockstepRun(stack, pos, front);
      EveryRun(stack, pos, front);
      var s := Run(Init(stack, pos), front);
      if s.initialized && !s.disposed { LockstepUnlessPushedBlind(s, events[n]); }
      else if !s.initialized { FirstStepInLockstep(s, events[n]); }
      else { DisposedStepInLockstep(s, events[n]); }
    }
  }

  // ---- what a run must do to lose lockstep ----

  /** The shown entry is readable, or the popstate that announces it is the last one waiting. */
  predicate ReadableOrAnnounced(s: State)
    requires s.pos < |s.stack|
  {
    Here(s).Some? || (s.popped != [] && s.popped[|s.popped| - 1] == s.stack[s.pos])
  }

  lemma AtCurrentIsReadable(s: State)
    requires Running(s) && AtCurrent(s)
    ensures Here(s).Some?
  {
  }

  lemma AnnouncedByTraverse(s: State, delta: int)
    requires s.pos < |s.stack| && ReadableOrAnnounced(s)
    ensures ReadableOrAnnounced(Traverse(s, delta))
  {
  }

  lemma AnnouncedByRouteEffect(s: State, epoch: int, route: Route)
    requires Inv(s) && !s.disposed && (s.initialized ==> ReadableOrAnnounced(s) && Heading(s))
    ensures ReadableOrAnnounced(OnRouteEffect(s, epoch, route))
  {
    var t := OnRouteEffect(s, epoch, route);
    RouteEffectKeeps(s, epoch, route);
    if !s.initialized {
      PushArrives(Mark(s.(initialized := true), Entry(0, epoch, None)), route, epoch);
      AtCurrentIsReadable(t);
    } else if !Unchanged(s, epoch, route) {
      RouteEffectHeads(s, epoch, route);
      AtCurrentIsReadable(t);
    }
  }

  lemma AnnouncedByPopState(s: State, epoch: int, accepts: bool)
    requires Inv(s) && Active(s) && ReadableOrAnnounced(s)
    ensures ReadableOrAnnounced(Step(s, PopState(epoch, accepts)))
  {
    if s.popped != [] {
      var d, h := s.(popped := s.popped[1..]), s.popped[0];
      SamePlaces(s, d);
      if ReadIndex(d, h).None? && Here(d).None? {
        TakeOverIsReadable(d, h, epoch, accepts);
      } else {
        AnnouncedStays(s, d);
        ReadablePopMovesNothing(d, h, epoch, accepts);
        SameAnnounced(d, OnPopState(d, h, epoch, accepts));
      }
    }
  }

  lemma TakeOverIsReadable(s: State, h: HistoryState, epoch: int, accepts: bool)
    requires s.pos < |s.stack| && !s.disposed && Running(s) && ReadIndex(s, h).None? && Here(s).None?
    ensures Here(OnPopState(s, h, epoch, accepts)).Some?
  {
    TakeOverOffset(s, h, epoch, accepts);
    AtCurrentIff(OnPopState(s, h, epoch, accepts));
    AtCurrentIsReadable(OnPopState(s, h, epoch, accepts));
  }

  lemma AnnouncedStays(s: State, d: State)
    requires s.pos < |s.stack| && s.popped != [] && d == s.(popped := s.popped[1..])
    requires ReadableOrAnnounced(s) && (ReadIndex(s, s.popped[0]).Some? || Here(s).Some?)
    ensures ReadableOrAnnounced(d)
  {
  }

  lemma SameAnnounced(s: State, t: State)
    requires s.pos < |s.stack| && ReadableOrAnnounced(s)
    requires t.stack == s.stack && t.pos == s.pos && t.popped == s.popped && t.entries == s.entries
             && t.tokens == s.tokens
    ensures ReadableOrAnnounced(t)
  {
  }

  lemma StepAnnounced(s: State, e: Event)
    requires Inv(s) && !s.disposed && (s.initialized ==> ReadableOrAnnounced(s) && Heading(s))
    ensures Active(Step(s, e)) ==> ReadableOrAnnounced(Step(s, e))
  {
    match e
    case RouteEffect(epoch, route) => AnnouncedByRouteEffect(s, epoch, route);
    case PopState(epoch, accepts) => if s.initialized { AnnouncedByPopState(s, epoch, accepts); }
    case Land(delta) => if s.initialized { AnnouncedByTraverse(s, delta); }
    case LandGo =>
      if s.initialized && s.gos != [] { AnnouncedByTraverse(s.(gos := s.gos[1..]), s.gos[0]); }
    case Dispose =>
  }

  /** In every run, an entry the ledger cannot read is shown only until its popstate is handled. */
  lemma {:induction false} UnreadableIsAnnounced(stack: seq<HistoryState>, pos: nat, events: seq<Event>)
    requires Fresh(stack, pos)
    ensures Active(Run(Init(stack, pos), events)) ==> ReadableOrAnnounced(Run(Init(stack, pos), events))
    decreases |events|
  {
    if events != [] {
      var s, e := Run(Init(stack, pos), events[..|events| - 1]), events[|events| - 1];
      UnreadableIsAnnounced(stack, pos, events[..|events| - 1]);
      EveryRun(stack, pos, events[..|events| - 1]);
      EveryRunHeads(stack, pos, events[..|events| - 1]);
      if s.disposed { StaysDisposed(s, e); } else { StepAnnounced(s, e); }
    }
  }

  /** A route change is recorded while a popstate is still waiting. */
  predicate OvertakesAPopState(s: State, e: Event) {
    e.RouteEffect? && Active(s) && !Unchanged(s, e.epoch, e.route) && s.popped != []
  }

  /** So a run that records no route change while a popstate is waiting keeps ledger and browser in lockstep. */
  lemma LockstepUnlessOvertaken(stack: seq<HistoryState>, pos: nat, events: seq<Event>)
    requires Fresh(stack, pos)
    requires forall i :: 0 <= i < |events| ==> !OvertakesAPopState(Run(Init(stack, pos), events[..i]), events[i])
    ensures Lockstep(Run(Init(stack, pos), events))
  {
    forall i | 0 <= i < |events| ensures !PushesBlind(Run(Init(stack, pos), events[..i]), events[i]) {
      UnreadableIsAnnounced(stack, pos, events[..i]);
    }
    LockstepRun(stack, pos, events);
  }

  /** Entry 0 has a token but no place in the browser. */
  predicate Broken(s: State) {
    0 in s.tokens && Ours(0, s.tokens[0]) !in s.stack
  }

  lemma BrokenIsNotLockstep(s: State)
    requires Running(s) && Broken(s)
    ensures !Lockstep(s)
  {
  }

  /** Once broken, only a take-over mends it. */
  lemma BrokenStays(s: State, e: Event)
    requires Inv(s) && Active(s) && Broken(s) && !TakesOver(s, e) && !e.Dispose?
    ensures Broken(Step(s, e))
  {
    match e
    case RouteEffect(epoch, route) => BrokenByRouteEffect(s, epoch, route);
    case PopState(epoch, accepts) =>
      if s.popped != [] {
        ReadablePopMovesNothing(s.(popped := s.popped[1..]), s.popped[0], epoch, accepts);
      }
    case Land(_) =>
    case LandGo =>
    case Dispose =>
  }

  lemma BrokenByRouteEffect(s: State, epoch: int, route: Route)
    requires Inv(s) && Active(s) && Broken(s)
    ensures Broken(OnRouteEffect(s, epoch, route))
  {
    if !Unchanged(s, epoch, route) {
      var m := BeforePush(s, epoch);
      NotAtZero(s);
      BrokenByMark(s, epoch);
      BrokenByPush(m, route, epoch);
    }
  }

  /** The state in which a recorded route change pushes. */
  function BeforePush(s: State, epoch: int): (t: State)
    requires s.pos < |s.stack| && s.current.Some?
    ensures t.pos < |t.stack|
  {
    (if s.current.value.epoch != epoch then Mark(s, BoundaryEntry(s, epoch)) else s).(repairing := false)
  }

  lemma NotAtZero(s: State)
    requires Inv(s) && Active(s) && Broken(s)
    ensures s.current.value.index > 0 && Here(s) != Some(0)
  {
    assert s.stack[s.pos] in s.stack;
  }

  lemma BrokenByMark(s: State, epoch: int)
    requires Inv(s) && Active(s) && Broken(s) && s.current.value.index > 0 && Here(s) != Some(0)
    ensures Broken(BeforePush(s, epoch)) && PushIndex(BeforePush(s, epoch)) > 0
  {
  }

  lemma BrokenByPush(s: State, route: Route, epoch: int)
    requires s.pos < |s.stack| && Broken(s) && PushIndex(s) > 0
    ensures Broken(Push(s, route, epoch))
  {
  }

  lemma BlindPushBreaks(s: State, e: Event)
    requires Inv(s) && PushesBlind(s, e)
    ensures Broken(Step(s, e))
  {
    var m := BeforePush(s, e.epoch);
    ZeroIsAbove(s);
    BlindMark(s, e.epoch);
    BlindPushHides(m, e.route, e.epoch);
  }

  lemma ZeroIsAbove(s: State)
    requires Inv(s) && Active(s) && Here(s).None?
    ensures s.current.value.index > 0 && 0 in s.tokens && Ours(0, s.tokens[0]) !in s.stack[..s.pos + 1]
  {
    forall p | 0 <= p <= s.pos ensures s.stack[p] != Ours(0, s.tokens[0]) {
      NothingLiveBelowBlind(s, p);
    }
  }

  lemma BlindMark(s: State, epoch: int)
    requires Inv(s) && Active(s) && Here(s).None? && s.current.value.index > 0
    requires 0 in s.tokens && Ours(0, s.tokens[0]) !in s.stack[..s.pos + 1]
    ensures var m := BeforePush(s, epoch);
      && 0 in m.tokens && Ours(0, m.tokens[0]) !in m.stack[..m.pos + 1] && PushIndex(m) > 0
  {
    var m := BeforePush(s, epoch);
    assert forall p :: 0 <= p < s.pos ==> m.stack[p] == s.stack[p] && s.stack[p] in s.stack[..s.pos + 1] by {
      assert forall p :: 0 <= p < s.pos ==> s.stack[p] == s.stack[..s.pos + 1][p];
    }
    assert s.stack[..s.pos + 1][s.pos] in s.stack[..s.pos + 1];
  }

  lemma BlindPushHides(s: State, route: Route, epoch: int)
    requires s.pos < |s.stack| && PushIndex(s) > 0
    requires 0 in s.tokens && Ours(0, s.tokens[0]) !in s.stack[..s.pos + 1]
    ensures Broken(Push(s, route, epoch))
  {
  }

  /** No blind push since the last take-over. */
  predicate Intact(s: State, events: seq<Event>)
    requires s.pos < |s.stack|
    decreases |events|
  {
    events == [] ||
    var front, e := events[..|events| - 1], events[|events| - 1];
    TakesOver(Run(s, front), e) || (Intact(s, front) && !PushesBlind(Run(s, front), e))
  }

  predicate LockstepOrBroken(s: State, intact: bool) {
    if intact then Lockstep(s) else s.initialized && Broken(s)
  }

  lemma StepLockstepOrBroken(s: State, e: Event, intact: bool)
    requires Inv(s) && !s.disposed && !e.Dispose? && LockstepOrBroken(s, intact)
    ensures LockstepOrBroken(Step(s, e), TakesOver(s, e) || (intact && !PushesBlind(s, e)))
  {
    if !s.initialized {
      FirstStepInLockstep(s, e);
    } else if TakesOver(s, e) {
      TakeOverMends(s, e);
    } else {
      StaysActive(s, e);
      if intact {
        LockstepUnlessPushedBlind(s, e);
        if PushesBlind(s, e) { BlindPushBreaks(s, e); }
      } else {
        BrokenStays(s, e);
      }
    }
  }

  lemma TakeOverMends(s: State, e: Event)
    requires Inv(s) && TakesOver(s, e)
    ensures Lockstep(Step(s, e))
  {
    MendedBy(s, s.(popped := s.popped[1..]), s.popped[0], e.epoch, e.accepts);
  }

  lemma MendedBy(s: State, d: State, h: HistoryState, epoch: int, accepts: bool)
    requires Inv(s) && Active(s) && s.popped != [] && d == s.(popped := s.popped[1..])
    requires ReadIndex(s, h).None? && Here(s).None?
    ensures Lockstep(OnPopState(d, h, epoch, accepts))
  {
    SamePlaces(s, d);
    TakeOverOffset(d, h, epoch, accepts);
  }

  lemma {:induction false} EveryRunLockstepOrBroken(stack: seq<HistoryState>, pos: nat, events: seq<Event>)
    requires Fresh(stack, pos) && Dispose !in events
    ensures var s := Run(Init(stack, pos), events);
      Inv(s) && !s.disposed && LockstepOrBroken(s, Intact(Init(stack, pos), events))
    decreases |events|
  {
    EveryRun(stack, pos, events);
    if events != [] {
      var front, e := events[..|events| - 1], events[|events| - 1];
      assert e in events && forall x :: x in front ==> x in events;
      EveryRunLockstepOrBroken(stack, pos, front);
      StepLockstepOrBroken(Run(Init(stack, pos), front), e, Intact(Init(stack, pos), front));
      NotDisposedBy(Run(Init(stack, pos), front), e);
    }
  }

  lemma NotDisposedBy(s: State, e: Event)
    requires s.pos < |s.stack| && !s.disposed && !e.Dispose?
    ensures !Step(s, e).disposed
  {
    match e
    case RouteEffect(_, _) =>
    case PopState(_, _) =>
    case Land(_) =>
    case LandGo =>
    case Dispose =>
  }

  /**
   Over every run of a controller that is not disposed, ledger and browser agree entry by entry if and only
   if no route change was recorded at an unreadable entry since the last take-over.
   */
  lemma LockstepIffIntact(stack: seq<HistoryState>, pos: nat, events: seq<Event>)
    requires Fresh(stack, pos) && Dispose !in events
    ensures Lockstep(Run(Init(stack, pos), events)) <==> Intact(Init(stack, pos), events)
  {
    EveryRunLockstepOrBroken(stack, pos, events);
    var s := Run(Init(stack, pos), events);
    if s.initialized && Broken(s) { BrokenIsNotLockstep(s); }
  }

  lemma FirstStepInLockstep(s: State, e: Event)
    requires s.pos < |s.stack| && !s.initialized && Lockstep(s) && (s.disposed || Unstarted(s))
    ensures Lockstep(Step(s, e))
  {
    if e.RouteEffect? && !s.disposed { FirstRouteInLockstep(s.(initialized := true), e.epoch, e.route); }
  }

  lemma FirstRouteInLockstep(s: State, epoch: int, route: Route)
    requires s.pos < |s.stack| && s.entries == map[]
    ensures Lockstep(Push(Mark(s, Entry(0, epoch, None)), route, epoch))
  {
    var m := Mark(s, Entry(0, epoch, None));
    assert m.entries == map[0 := Entry(0, epoch, None)] && Here(m) == Some(0);
    PushKeepsLockstep(m, route, epoch);
  }

  lemma DisposedStepInLockstep(s: State, e: Event)
    requires s.pos < |s.stack| && s.disposed && Lockstep(s)
    ensures Lockstep(Step(s, e))
  {
  }

  /** A route change between the landing of a traversal and its popstate event does break it. */
  lemma LockstepCanBreak(a: Route, b: Route)
    requires a != b
    ensures !Lockstep(Run(Init([Foreign(0), Foreign(1)], 1), [RouteEffect(0, a), Land(-2), RouteEffect(0, b)]))
  {
    var stack := [Foreign(0), Foreign(1)];
    var s1 := Step(Init(stack, 1), RouteEffect(0, a));
    var s2 := Step(s1, Land(-2));
    RunSnoc(Init(stack, 1), [], RouteEffect(0, a));
    RunSnoc(Init(stack, 1), [RouteEffect(0, a)], Land(-2));
    RunSnoc(Init(stack, 1), [RouteEffect(0, a), Land(-2)], RouteEffect(0, b));
    assert [RouteEffect(0, a), Land(-2)] + [RouteEffect(0, b)] == [RouteEffect(0, a), Land(-2), RouteEffect(0, b)];
    FirstMountBreaks(a, b, s1, s2);
  }

  lemma FirstMountBreaks(a: Route, b: Route, s1: State, s2: State)
    requires a != b && s1 == Step(Init([Foreign(0), Foreign(1)], 1), RouteEffect(0, a)) && s2 == Step(s1, Land(-2))
    ensures !Lockstep(Step(s2, RouteEffect(0, b)))
  {
    var stack := [Foreign(0), Foreign(1)];
    FirstMount(a);
    assert Inv(Init(stack, 1));
    StepKeeps(Init(stack, 1), RouteEffect(0, a));
    StepKeeps(s1, Land(-2));
    LandsAtForeign(s1);
    assert !Unchanged(s2, 0, b);
    LockstepUnlessPushedBlind(s2, RouteEffect(0, b));
  }

  lemma LandsAtForeign(s: State)
    requires |s.stack| == 3 && s.stack[0] == Foreign(0) && s.pos == 2 && Lockstep(s)
    ensures var t := Step(s, Land(-2));
      && Lockstep(t) && Here(t).None? && t.current == s.current && t.initialized == s.initialized
         && t.disposed == s.disposed
      && t.pos == 0 && t.stack == s.stack
  {
    TraverseKeepsLockstep(s, -2);
  }

  lemma FirstMount(a: Route)
    ensures var s := Step(Init([Foreign(0), Foreign(1)], 1), RouteEffect(0, a));
      && s.stack == [Foreign(0), Ours(0, 1), Ours(1, 2)] && s.pos == 2 && s.initialized && !s.disposed
      && s.current == Some(Entry(1, 0, Some(a))) && Lockstep(s)
  {
    var s0 := Init([Foreign(0), Foreign(1)], 1);
    FirstStepInLockstep(s0, RouteEffect(0, a));
    FirstMark(s0.(initialized := true), a);
  }

  lemma FirstMark(s: State, a: Route)
    requires s.stack == [Foreign(0), Foreign(1)] && s.pos == 1 && s.nextToken == 0 && s.entries == map[]
    ensures var t := Push(Mark(s, Entry(0, 0, None)), a, 0);
      && t.stack == [Foreign(0), Ours(0, 1), Ours(1, 2)] && t.pos == 2
      && t.current == Some(Entry(1, 0, Some(a))) && t.initialized == s.initialized && t.disposed == s.disposed
  {
    var m := Mark(s, Entry(0, 0, None));
    assert m.stack == [Foreign(0), Ours(0, 1)] && m.pos == 1 && m.nextToken == 1;
    assert PushIndex(m) == 1;
    assert m.stack[..2] == m.stack;
  }

  lemma RunSnoc(s: State, events: seq<Event>, e: Event)
    requires s.pos < |s.stack|
    ensures Run(s, events + [e]) == Step(Run(s, events), e)
  {
    assert (events + [e])[..|events|] == events;
  }

  // ---- the object ----

  /** The controller closure together with the browser it drives. */
  class WorkspaceNavigation {
    var entries: map<nat, Entry>
    var entryTokens: map<nat, nat>
    var nextToken: nat
    var current: Option<Entry>
    var initialized: bool
    var repairing: bool
    var disposed: bool
    var stack: seq<HistoryState>
    var pos: nat
    var gos: seq<int>
    var popped: seq<HistoryState>
    ghost var base: int
    ghost var written: map<nat, Entry>
    ghost var restored: seq<Restore>

    ghost function View(): State
      reads this
    {
      State(entries, entryTokens, nextToken, current, initialized, repairing, disposed,
            stack, pos, gos, popped, base, written, restored)
    }

    ghost predicate Valid()
      reads this
    {
      pos < |stack|
    }

    constructor (stack: seq<HistoryState>, pos: nat)
      requires pos < |stack|
      ensures Valid() && View() == Init(stack, pos)
    {
      entries, entryTokens, nextToken, current := map[], map[], 0, None;
      initialized, repairing, disposed := false, false, false;
      this.stack, this.pos, gos, popped := stack, pos, [], [];
      base, written, restored := 0, map[], [];
    }

    method StateFor(index: nat) returns (h: HistoryState)
      requires index in entries
      modifies `nextToken, `entryTokens, `written
      ensures View() == Issue(old(View()), index) && h == Ours(index, nextToken)
    {
      nextToken := nextToken + 1;
      entryTokens := entryTokens[index := nextToken];
      written := written[nextToken := entries[index]];
      h := Ours(index, nextToken);
    }

    method ReplaceEntry(entry: Entry)
      requires Valid()
      modifies this
      ensures Valid() && View() == Mark(old(View()), entry)
    {
      entries := entries[entry.index := entry];
      var h := StateFor(entry.index);
      stack := stack[pos := h];
      current := Some(entry);
      base := pos - entry.index;
    }

    /** Deletes the ledger entries a push would truncate. */
    method DropFrom(index: nat)
      modifies `entries
      ensures entries == Below(old(entries), index)
    {
      ghost var before := entries;
      var keys := entries.Keys;
      while keys != {}
        invariant keys <= before.Keys
        invariant entries == map k | k in before && (k in keys || k < index) :: before[k]
        decreases keys
      {
        var key :| key in keys;
        if key >= index {
          entries := entries - {key};
        }
        keys := keys - {key};
      }
    }

    method PushRoute(route: Route, epoch: int)
      requires Valid()
      modifies this
      ensures Valid() && View() == Push(old(View()), route, epoch)
    {
      var index := PushIndexHere();
      PushRouteAt(index, route, epoch);
    }

    method EnterRoute(entry: Entry) returns (h: HistoryState)
      requires Valid()
      modifies `entries, `current, `nextToken, `entryTokens, `written
      ensures Valid() && View() == Enter(old(View()), entry) && h == Ours(entry.index, nextToken)
    {
      DropFrom(entry.index);
      entries := entries[entry.index := entry];
      current := Some(entry);
      h := StateFor(entry.index);
    }

    method PushRouteAt(index: nat, route: Route, epoch: int)
      requires Valid()
      modifies this
      ensures Valid() && View() == PushAt(old(View()), index, route, epoch)
    {
      var h := EnterRoute(Entry(index, epoch, Some(route)));
      stack := stack[..pos + 1] + [h];
      pos := pos + 1;
      base := pos - index;
    }

    method ReadHere() returns (index: Option<nat>)
      requires Valid()
      ensures index == Here(View())
    {
      index := Read(stack[pos]);
    }

    method Read(h: HistoryState) returns (index: Option<nat>)
      ensures index == ReadIndex(View(), h)
    {
      index := None;
      if h.Ours? && h.index in entries && h.index in entryTokens && entryTokens[h.index] == h.token {
        index := Some(h.index);
      }
    }

    method PushIndexHere() returns (index: nat)
      requires Valid()
      ensures index == PushIndex(View())
    {
      var here := ReadHere();
      if here.Some? {
        index := here.value + 1;
      } else if current.Some? {
        index := current.value.index + 1;
      } else {
        index := 0;
      }
    }

    method RepairTo(target: Option<nat>)
      requires Valid()
      modifies this
      ensures Valid() && View() == Repair(old(View()), target)
    {
      if current.None? || current.value.route.None? {
        return;
      }
      if target.None? {
        var route, epoch := current.value.route.value, current.value.epoch;
        entries := map[];
        ReplaceEntry(Entry(0, epoch, None));
        PushRoute(route, epoch);
      } else {
        var delta := current.value.index - target.value;
        if delta != 0 {
          repairing := true;
          gos := gos + [delta];
        }
      }
    }

    method HandlePopState(h: HistoryState, epoch: int, accepts: bool)
      requires Valid()
      modifies this
      ensures Valid() && View() == OnPopState(old(View()), h, epoch, accepts)
    {
      if disposed || current.None? {
        return;
      }
      var index := Read(h);
      var here := ReadHere();
      if index != here {
        return;
      }
      if repairing && index == Some(current.value.index) {
        repairing := false;
        return;
      }
      if index.None? || entries[index.value].route.None? || entries[index.value].epoch != epoch {
        RepairTo(index);
        return;
      }
      if index.value == current.value.index {
        return;
      }
      var target := entries[index.value];
      restored := restored + [Restore(target.route.value, entryTokens[index.value], epoch)];
      if accepts {
        current, repairing := Some(target), false;
      } else {
        RepairTo(index);
      }
    }

    method RouteChanged(epoch: int, route: Route)
      requires Valid()
      modifies this
      ensures Valid() && View() == Step(old(View()), RouteEffect(epoch, route))
    {
      if disposed {
        return;
      }
      if !initialized {
        initialized := true;
        ReplaceEntry(Entry(0, epoch, None));
        PushRoute(route, epoch);
        return;
      }
      if current.Some? && current.value.epoch == epoch && current.value.route == Some(route) {
        return;
      }
      if current.Some? && current.value.epoch != epoch {
        var here := ReadHere();
        ReplaceEntry(Entry(if here.Some? then here.value else current.value.index, epoch, None));
      }
      repairing := false;
      PushRoute(route, epoch);
    }

    method Cleanup()
      requires Valid()
      modifies this
      ensures Valid() && View() == Step(old(View()), Dispose)
    {
      disposed := true;
      entries, entryTokens := map[], map[];
    }
  }
}
