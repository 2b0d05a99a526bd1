/**
 The integrity check over Banks, Cues and playback executors, the fence for delayed commands, and the
 next free identity: app/src/bankAuthority.ts.

 Identities are integers; the semantic token of an authority is the tuple the source serializes.
 */
module BankAuthority {
  import opened Prelude

  datatype Bank = Bank(id: int, name: string, activeCue: Option<int>)
  datatype Cue = Cue(id: int, bank: int)
  datatype Executor = Executor(id: int, bank: int)

  datatype Issue =
    | InvalidBankId(id: int, index: nat)
    | DuplicateBankId(id: int, firstIndex: nat, index: nat)
    | InvalidCueId(id: int, index: nat)
    | DuplicateCueId(id: int, firstIndex: nat, index: nat)
    | InvalidCueBankId(cueId: int, id: int, index: nat)
    | MissingCueBank(cueId: int, id: int, index: nat)
    | InvalidBankActiveCueId(bankId: int, id: int, index: nat)
    | MissingBankActiveCue(bankId: int, cueId: int, index: nat)
    | CrossBankActiveCue(bankId: int, cueId: int, cueBankId: int, index: nat)
    | InvalidExecutorId(id: int, index: nat)
    | DuplicateExecutorId(id: int, firstIndex: nat, index: nat)
    | InvalidExecutorBankId(executorId: int, id: int, index: nat)
    | MissingExecutorBank(executorId: int, id: int, index: nat)

  datatype Snapshot = Snapshot(banks: seq<Bank>, cues: seq<Cue>, executors: seq<Executor>, issue: Option<Issue>,
                               bankById: map<int, Bank>, cueById: map<int, Cue>, executorById: map<int, Executor>)

  predicate ValidIdentity(id: int) { 0 < id <= MAX_SAFE_INTEGER }

  function BankIds(banks: seq<Bank>): seq<int> { seq(|banks|, i requires 0 <= i < |banks| => banks[i].id) }
  function CueIds(cues: seq<Cue>): seq<int> { seq(|cues|, i requires 0 <= i < |cues| => cues[i].id) }
  function ExecutorIds(es: seq<Executor>): seq<int> { seq(|es|, i requires 0 <= i < |es| => es[i].id) }

  // ---- what is wrong, row by row ----

  /** The position of an identity among the rows. */
  function FirstIndex(ids: seq<int>, id: int): (r: Option<nat>)
    ensures r.Some? ==> r.value < |ids| && ids[r.value] == id
    ensures r.None? <==> id !in ids
    decreases |ids|
  {
    if ids == [] then None
    else
      var before := FirstIndex(ids[..|ids| - 1], id);
      assert ids == ids[..|ids| - 1] + [ids[|ids| - 1]];
      if before.Some? then before else if ids[|ids| - 1] == id then Some(|ids| - 1) else None
  }

  /** It is the first such row. */
  lemma {:induction false} FirstIndexIsFirst(ids: seq<int>, id: int)
    ensures FirstIndex(ids, id).Some? ==> forall k :: 0 <= k < FirstIndex(ids, id).value ==> ids[k] != id
    decreases |ids|
  {
    if ids != [] {
      FirstIndexIsFirst(ids[..|ids| - 1], id);
      assert FirstIndex(ids[..|ids| - 1], id).None? ==>
               forall k :: 0 <= k < |ids| - 1 ==> ids[k] == ids[..|ids| - 1][k];
    }
  }

  /** Whether a reference resolves: some row with that valid identity. */
  predicate Known(ids: seq<int>, id: int) { ValidIdentity(id) && id in ids }

  function BankFault(banks: seq<Bank>, i: nat): Option<Issue>
    requires i < |banks|
  {
    var id := banks[i].id;
    if !ValidIdentity(id) then Some(InvalidBankId(id, i))
    else
      var first := FirstIndex(BankIds(banks)[..i], id);
      if first.Some? then Some(DuplicateBankId(id, first.value, i)) else None
  }

  function CueFault(banks: seq<Bank>, cues: seq<Cue>, i: nat): Option<Issue>
    requires i < |cues|
  {
    var id, bank := cues[i].id, cues[i].bank;
    if !ValidIdentity(id) then Some(InvalidCueId(id, i))
    else
      var first := FirstIndex(CueIds(cues)[..i], id);
      if first.Some? then Some(DuplicateCueId(id, first.value, i))
      else if !ValidIdentity(bank) then Some(InvalidCueBankId(id, bank, i))
      else if !Known(BankIds(banks), bank) then Some(MissingCueBank(id, bank, i))
      else None
  }

  function ActiveFault(banks: seq<Bank>, cues: seq<Cue>, i: nat): Option<Issue>
    requires i < |banks|
  {
    var bank, active := banks[i].id, banks[i].activeCue;
    if active.None? then None
    else if !ValidIdentity(active.value) then Some(InvalidBankActiveCueId(bank, active.value, i))
    else
      var row := FirstIndex(CueIds(cues), active.value);
      if row.None? then Some(MissingBankActiveCue(bank, active.value, i))
      else if cues[row.value].bank != bank then Some(CrossBankActiveCue(bank, active.value, cues[row.value].bank, i))
      else None
  }

  function ExecutorFault(banks: seq<Bank>, es: seq<Executor>, i: nat): Option<Issue>
    requires i < |es|
  {
    var id, bank := es[i].id, es[i].bank;
    if !ValidIdentity(id) then Some(InvalidExecutorId(id, i))
    else
      var first := FirstIndex(ExecutorIds(es)[..i], id);
      if first.Some? then Some(DuplicateExecutorId(id, first.value, i))
      else if !ValidIdentity(bank) then Some(InvalidExecutorBankId(id, bank, i))
      else if !Known(BankIds(banks), bank) then Some(MissingExecutorBank(id, bank, i))
      else None
  }

  /** `a ??= b`. */
  function Or(a: Option<Issue>, b: Option<Issue>): Option<Issue> { if a.Some? then a else b }

  /** The rows, and the four passes over them: Banks, Cues, active Cues, executors. */
  datatype Rows = Rows(banks: seq<Bank>, cues: seq<Cue>, executors: seq<Executor>)

  datatype Pass = OverBanks | OverCues | OverActiveCues | OverExecutors

  function Length(w: Rows, p: Pass): nat {
    match p
    case OverBanks => |w.banks|
    case OverCues => |w.cues|
    case OverActiveCues => |w.banks|
    case OverExecutors => |w.executors|
  }

  function Fault(w: Rows, p: Pass, i: nat): Option<Issue>
    requires i < Length(w, p)
  {
    match p
    case OverBanks => BankFault(w.banks, i)
    case OverCues => CueFault(w.banks, w.cues, i)
    case OverActiveCues => ActiveFault(w.banks, w.cues, i)
    case OverExecutors => ExecutorFault(w.banks, w.executors, i)
  }

  /** The first fault of the first n rows of a pass, if `before` has not reported one already. */
  function FirstFault(before: Option<Issue>, w: Rows, p: Pass, n: nat): Option<Issue>
    requires n <= Length(w, p)
  {
    if n == 0 then before else Or(FirstFault(before, w, p, n - 1), Fault(w, p, n - 1))
  }

  function AfterPass(before: Option<Issue>, w: Rows, p: Pass): Option<Issue> { FirstFault(before, w, p, Length(w, p)) }

  function FirstIssue(w: Rows): Option<Issue> {
    AfterPass(AfterPass(AfterPass(AfterPass(None, w, OverBanks), w, OverCues), w, OverActiveCues), w, OverExecutors)
  }

  // ---- what an intact authority is ----

  /** A primary key: valid, and no two rows share one. */
  predicate Keyed(ids: seq<int>) {
    (forall i :: 0 <= i < |ids| ==> ValidIdentity(ids[i])) && (forall i, j :: 0 <= i < j < |ids| ==> ids[i] != ids[j])
  }

  predicate ActiveResolves(b: Bank, cues: seq<Cue>) {
    b.activeCue.Some? ==> Cue(b.activeCue.value, b.id) in cues
  }

  predicate BankKnown(banks: seq<Bank>, bank: int) { bank in BankIds(banks) }

  predicate Intact(w: Rows) {
    && Keyed(BankIds(w.banks)) && Keyed(CueIds(w.cues)) && Keyed(ExecutorIds(w.executors))
    && CueBanksKnown(w) && ActiveCuesResolve(w) && ExecutorBanksKnown(w)
  }

  ghost predicate Clean(w: Rows, p: Pass) {
    forall i :: 0 <= i < Length(w, p) ==> Fault(w, p, i).None?
  }

  lemma {:induction false} NoFault(before: Option<Issue>, w: Rows, p: Pass, n: nat)
    requires n <= Length(w, p)
    ensures FirstFault(before, w, p, n).None? <==> before.None? && forall i :: 0 <= i < n ==> Fault(w, p, i).None?
  {
    if n > 0 { NoFault(before, w, p, n - 1); }
  }

  lemma CleanPass(before: Option<Issue>, w: Rows, p: Pass)
    ensures AfterPass(before, w, p).None? <==> before.None? && Clean(w, p)
  {
    NoFault(before, w, p, Length(w, p));
  }

  predicate KeyOk(ids: seq<int>, i: nat)
    requires i < |ids|
  {
    ValidIdentity(ids[i]) && FirstIndex(ids[..i], ids[i]).None?
  }

  predicate AllKeysOk(ids: seq<int>) { forall i :: 0 <= i < |ids| ==> KeyOk(ids, i) }

  lemma KeyedIff(ids: seq<int>)
    ensures Keyed(ids) <==> AllKeysOk(ids)
  {
    if Keyed(ids) {
      forall i | 0 <= i < |ids| ensures KeyOk(ids, i) {
        assert forall k :: 0 <= k < i ==> ids[..i][k] == ids[k];
        assert ids[i] !in ids[..i];
      }
    }
    if AllKeysOk(ids) {
      forall i | 0 <= i < |ids| ensures ValidIdentity(ids[i]) {
        assert KeyOk(ids, i);
      }
      forall i, j | 0 <= i < j < |ids| ensures ids[i] != ids[j] {
        assert KeyOk(ids, j);
        assert ids[..j][i] in ids[..j];
      }
    }
  }

  lemma BanksIff(w: Rows)
    ensures Clean(w, OverBanks) <==> Keyed(BankIds(w.banks))
  {
    KeyedIff(BankIds(w.banks));
    forall i | 0 <= i < |w.banks| ensures Fault(w, OverBanks, i).None? <==> KeyOk(BankIds(w.banks), i) {
    }
  }

  lemma KnownIff(banks: seq<Bank>, bank: int)
    requires Keyed(BankIds(banks))
    ensures Known(BankIds(banks), bank) <==> BankKnown(banks, bank)
  {
    if bank in BankIds(banks) {
      var k :| 0 <= k < |banks| && BankIds(banks)[k] == bank;
      assert ValidIdentity(BankIds(banks)[k]);
    }
  }

  predicate CueBanksKnown(w: Rows) { forall i :: 0 <= i < |w.cues| ==> BankKnown(w.banks, w.cues[i].bank) }
  predicate ExecutorBanksKnown(w: Rows) {
    forall i :: 0 <= i < |w.executors| ==> BankKnown(w.banks, w.executors[i].bank)
  }
  predicate ActiveCuesResolve(w: Rows) { forall i :: 0 <= i < |w.banks| ==> ActiveResolves(w.banks[i], w.cues) }

  lemma CuesIff(w: Rows)
    requires Keyed(BankIds(w.banks))
    ensures Clean(w, OverCues) <==> Keyed(CueIds(w.cues)) && CueBanksKnown(w)
  {
    KeyedIff(CueIds(w.cues));
    forall i | 0 <= i < |w.cues|
      ensures Fault(w, OverCues, i).None? <==> KeyOk(CueIds(w.cues), i) && BankKnown(w.banks, w.cues[i].bank)
    {
      KnownIff(w.banks, w.cues[i].bank);
    }
  }

  lemma ExecutorsIff(w: Rows)
    requires Keyed(BankIds(w.banks))
    ensures Clean(w, OverExecutors) <==> Keyed(ExecutorIds(w.executors)) && ExecutorBanksKnown(w)
  {
    KeyedIff(ExecutorIds(w.executors));
    forall i | 0 <= i < |w.executors|
      ensures Fault(w, OverExecutors, i).None?
              <==> KeyOk(ExecutorIds(w.executors), i) && BankKnown(w.banks, w.executors[i].bank)
    {
      KnownIff(w.banks, w.executors[i].bank);
    }
  }

  lemma ActiveIff(banks: seq<Bank>, cues: seq<Cue>, i: nat)
    requires Keyed(CueIds(cues)) && i < |banks|
    ensures ActiveFault(banks, cues, i).None? <==> ActiveResolves(banks[i], cues)
  {
    if banks[i].activeCue.Some? {
      var id := banks[i].activeCue.value;
      var row := FirstIndex(CueIds(cues), id);
      if row.Some? {
        assert CueIds(cues)[row.value] == id;
        forall k | 0 <= k < |cues| && cues[k].id == id ensures k == row.value {
          assert CueIds(cues)[k] == id;
        }
        assert cues[row.value].bank == banks[i].id ==> cues[row.value] == Cue(id, banks[i].id);
      } else {
        forall k | 0 <= k < |cues| ensures cues[k].id != id {
          assert CueIds(cues)[k] in CueIds(cues);
        }
      }
      if Cue(id, banks[i].id) in cues {
        var k :| 0 <= k < |cues| && cues[k] == Cue(id, banks[i].id);
        assert ValidIdentity(CueIds(cues)[k]);
      }
    }
  }

  lemma ActivesIff(w: Rows)
    requires Keyed(CueIds(w.cues))
    ensures Clean(w, OverActiveCues) <==> ActiveCuesResolve(w)
  {
    forall i | 0 <= i < |w.banks| ensures Fault(w, OverActiveCues, i).None? <==> ActiveResolves(w.banks[i], w.cues) {
      ActiveIff(w.banks, w.cues, i);
    }
  }

  /**
   No issue is reported if and only if every identity is valid and unique and every reference resolves to its own
   Bank.
   */
  lemma NoIssueIffIntact(w: Rows)
    ensures FirstIssue(w).None? <==> Intact(w)
  {
    var b := AfterPass(None, w, OverBanks);
    var c := AfterPass(b, w, OverCues);
    CleanPass(None, w, OverBanks);
    CleanPass(b, w, OverCues);
    CleanPass(c, w, OverActiveCues);
    CleanPass(AfterPass(c, w, OverActiveCues), w, OverExecutors);
    BanksIff(w);
    if Keyed(BankIds(w.banks)) {
      CuesIff(w);
      ExecutorsIff(w);
      if Keyed(CueIds(w.cues)) { ActivesIff(w); }
    }
  }


  // ---- the tables ----

  /** Each valid identity with its first row. */
  function Index(ids: seq<int>): map<int, nat>
    decreases |ids|
  {
    if ids == [] then map[]
    else
      var front, id := Index(ids[..|ids| - 1]), ids[|ids| - 1];
      if ValidIdentity(id) && id !in front then front[id := |ids| - 1] else front
  }

  lemma {:induction false} IndexIsFirst(ids: seq<int>, id: int)
    ensures id in Index(ids) <==> Known(ids, id)
    ensures id in Index(ids) ==> FirstIndex(ids, id) == Some(Index(ids)[id])
    decreases |ids|
  {
    if ids != [] {
      IndexIsFirst(ids[..|ids| - 1], id);
      assert ids == ids[..|ids| - 1] + [ids[|ids| - 1]];
    }
  }

  /** The table keeps, for every valid identity, its first row and nothing else. */
  ghost predicate TableOf<T>(table: map<int, T>, ids: seq<int>, rows: seq<T>)
    requires |ids| <= |rows|
  {
    && (forall id :: id in table <==> id in Index(ids))
    && (forall id :: id in table ==> Index(ids)[id] < |rows| && table[id] == rows[Index(ids)[id]])
  }

  /** With unique valid identities the table is exactly the rows. */
  lemma TableIsTheRows<T>(table: map<int, T>, ids: seq<int>, rows: seq<T>)
    requires Keyed(ids) && |ids| == |rows| && TableOf(table, ids, rows)
    ensures forall i :: 0 <= i < |rows| ==> ids[i] in table && table[ids[i]] == rows[i]
    ensures forall id :: id in table ==> id in ids
  {
    forall i | 0 <= i < |rows| ensures ids[i] in table && table[ids[i]] == rows[i] {
      IndexIsFirst(ids, ids[i]);
      assert ids[i] in ids;
    }
    forall id | id in table ensures id in ids {
      IndexIsFirst(ids, id);
    }
  }

  predicate SnapshotRows(s: Snapshot, w: Rows) {
    s.banks == w.banks && s.cues == w.cues && s.executors == w.executors
  }

  ghost predicate Tables(s: Snapshot) {
    && TableOf(s.bankById, BankIds(s.banks), s.banks) && TableOf(s.cueById, CueIds(s.cues), s.cues)
    && TableOf(s.executorById, ExecutorIds(s.executors), s.executors)
  }

  lemma TableGrows<T>(table: map<int, T>, ids: seq<int>, rows: seq<T>, n: nat)
    requires |ids| == |rows| && n < |ids| && TableOf(table, ids[..n], rows)
    ensures var next := if ValidIdentity(ids[n]) && ids[n] !in table then table[ids[n] := rows[n]] else table;
            TableOf(next, ids[..n + 1], rows)
  {
    assert ids[..n + 1][..n] == ids[..n];
  }

  /** inspectBankAuthority: every pass reports its first fault, and the tables keep the first row of each identity. */
  method Inspect(w: Rows) returns (s: Snapshot)
    ensures SnapshotRows(s, w) && s.issue == FirstIssue(w) && Tables(s)
    ensures s.issue.None? <==> Intact(w)
  {
    var issue, bankById := InspectBanks(w);
    var issue2, cueById := InspectCues(w, issue, bankById);
    var issue3 := InspectActiveCues(w, issue2, cueById);
    var issue4, executorById := InspectExecutors(w, issue3, bankById);
    NoIssueIffIntact(w);
    s := Snapshot(w.banks, w.cues, w.executors, issue4, bankById, cueById, executorById);
  }

  method InspectBanks(w: Rows) returns (issue: Option<Issue>, byId: map<int, Bank>)
    ensures issue == AfterPass(None, w, OverBanks)
    ensures TableOf(byId, BankIds(w.banks), w.banks)
  {
    issue, byId := None, map[];
    ghost var ids := BankIds(w.banks);
    var firstIndex: map<int, nat> := map[];
    var index := 0;
    while index < |w.banks|
      invariant 0 <= index <= |w.banks|
      invariant issue == FirstFault(None, w, OverBanks, index)
      invariant TableOf(byId, ids[..index], w.banks) && firstIndex == Index(ids[..index])
    {
      var bank := w.banks[index];
      TableGrows(byId, ids, w.banks, index);
      IndexIsFirst(ids[..index], bank.id);
      assert ids[..index + 1][..index] == ids[..index];
      if !ValidIdentity(bank.id) {
        issue := Or(issue, Some(InvalidBankId(bank.id, index)));
      } else if bank.id in firstIndex {
        issue := Or(issue, Some(DuplicateBankId(bank.id, firstIndex[bank.id], index)));
      } else {
        firstIndex := firstIndex[bank.id := index];
        byId := byId[bank.id := bank];
      }
      index := index + 1;
    }
    assert ids[..index] == ids;
  }

  method InspectCues(w: Rows, before: Option<Issue>, bankById: map<int, Bank>)
    returns (issue: Option<Issue>, byId: map<int, Cue>)
    requires TableOf(bankById, BankIds(w.banks), w.banks)
    ensures issue == AfterPass(before, w, OverCues)
    ensures TableOf(byId, CueIds(w.cues), w.cues)
  {
    issue, byId := before, map[];
    ghost var ids := CueIds(w.cues);
    var firstIndex: map<int, nat> := map[];
    var index := 0;
    while index < |w.cues|
      invariant 0 <= index <= |w.cues|
      invariant issue == FirstFault(before, w, OverCues, index)
      invariant TableOf(byId, ids[..index], w.cues) && firstIndex == Index(ids[..index])
    {
      var cue := w.cues[index];
      TableGrows(byId, ids, w.cues, index);
      IndexIsFirst(ids[..index], cue.id);
      IndexIsFirst(BankIds(w.banks), cue.bank);
      assert ids[..index + 1][..index] == ids[..index];
      if !ValidIdentity(cue.id) {
        issue := Or(issue, Some(InvalidCueId(cue.id, index)));
      } else if cue.id in firstIndex {
        issue := Or(issue, Some(DuplicateCueId(cue.id, firstIndex[cue.id], index)));
      } else {
        firstIndex := firstIndex[cue.id := index];
        byId := byId[cue.id := cue];
        if !ValidIdentity(cue.bank) {
          issue := Or(issue, Some(InvalidCueBankId(cue.id, cue.bank, index)));
        } else if cue.bank !in bankById {
          issue := Or(issue, Some(MissingCueBank(cue.id, cue.bank, index)));
        }
      }
      index := index + 1;
    }
    assert ids[..index] == ids;
  }

  method InspectActiveCues(w: Rows, before: Option<Issue>, cueById: map<int, Cue>) returns (issue: Option<Issue>)
    requires TableOf(cueById, CueIds(w.cues), w.cues)
    ensures issue == AfterPass(before, w, OverActiveCues)
  {
    issue := before;
    for index := 0 to |w.banks|
      invariant issue == FirstFault(before, w, OverActiveCues, index)
    {
      var bank := w.banks[index];
      if bank.activeCue.Some? {
        var active := bank.activeCue.value;
        IndexIsFirst(CueIds(w.cues), active);
        if !ValidIdentity(active) {
          issue := Or(issue, Some(InvalidBankActiveCueId(bank.id, active, index)));
        } else if active !in cueById {
          issue := Or(issue, Some(MissingBankActiveCue(bank.id, active, index)));
        } else if cueById[active].bank != bank.id {
          issue := Or(issue, Some(CrossBankActiveCue(bank.id, active, cueById[active].bank, index)));
        }
      }
    }
  }

  method InspectExecutors(w: Rows, before: Option<Issue>, bankById: map<int, Bank>)
    returns (issue: Option<Issue>, byId: map<int, Executor>)
    requires TableOf(bankById, BankIds(w.banks), w.banks)
    ensures issue == AfterPass(before, w, OverExecutors)
    ensures TableOf(byId, ExecutorIds(w.executors), w.executors)
  {
    issue, byId := before, map[];
    ghost var ids := ExecutorIds(w.executors);
    var firstIndex: map<int, nat> := map[];
    var index := 0;
    while index < |w.executors|
      invariant 0 <= index <= |w.executors|
      invariant issue == FirstFault(before, w, OverExecutors, index)
      invariant TableOf(byId, ids[..index], w.executors) && firstIndex == Index(ids[..index])
    {
      var executor := w.executors[index];
      TableGrows(byId, ids, w.executors, index);
      IndexIsFirst(ids[..index], executor.id);
      IndexIsFirst(BankIds(w.banks), executor.bank);
      assert ids[..index + 1][..index] == ids[..index];
      if !ValidIdentity(executor.id) {
        issue := Or(issue, Some(InvalidExecutorId(executor.id, index)));
      } else if executor.id in firstIndex {
        issue := Or(issue, Some(DuplicateExecutorId(executor.id, firstIndex[executor.id], index)));
      } else {
        firstIndex := firstIndex[executor.id := index];
        byId := byId[executor.id := executor];
        if !ValidIdentity(executor.bank) {
          issue := Or(issue, Some(InvalidExecutorBankId(executor.id, executor.bank, index)));
        } else if executor.bank !in bankById {
          issue := Or(issue, Some(MissingExecutorBank(executor.id, executor.bank, index)));
        }
      }
      index := index + 1;
    }
    assert ids[..index] == ids;
  }

  function Selected(s: Snapshot, id: Option<int>): Option<Bank> {
    if s.issue.Some? then None
    else if id.None? then (if s.banks == [] then None else Some(s.banks[0]))
    else if id.value in s.bankById then Some(s.bankById[id.value]) else None
  }

  /**
   A Bank is selected only from an intact authority: the one row with the asked identity, or the first without one
   asked.
   */
  lemma SelectionIsExact(s: Snapshot, w: Rows, id: int)
    requires SnapshotRows(s, w) && s.issue == FirstIssue(w) && Tables(s)
    ensures Selected(s, Some(id)).Some? <==> Intact(w) && exists i :: 0 <= i < |w.banks| && w.banks[i].id == id
    ensures Selected(s, Some(id)).Some? ==>
              forall i :: 0 <= i < |w.banks| && w.banks[i].id == id ==> Selected(s, Some(id)).value == w.banks[i]
    ensures Selected(s, None).Some? <==> Intact(w) && w.banks != []
    ensures Selected(s, None).Some? ==> Selected(s, None).value == w.banks[0]
  {
    NoIssueIffIntact(w);
    if Intact(w) {
      TableIsTheRows(s.bankById, BankIds(w.banks), w.banks);
      forall i | 0 <= i < |w.banks| ensures w.banks[i].id == BankIds(w.banks)[i] {
      }
      assert id in s.bankById ==> id in BankIds(w.banks);
    }
  }

  // ---- the fence for delayed commands ----

  datatype Checkpoint = Checkpoint(epoch: int, revision: int, hash: string)

  datatype Fence<T> = Fence(token: T, generation: int, exhausted: bool)

  datatype Capture<T> = Capture(project: Checkpoint, token: T, generation: int)

  function Observe<T(==)>(f: Fence<T>, token: T): Fence<T> {
    if f.exhausted || token == f.token then f
    else if f.generation >= MAX_SAFE_INTEGER then f.(token := token, exhausted := true)
    else f.(token := token, generation := f.generation + 1)
  }

  function Watch<T(==)>(initial: T, tokens: seq<T>): Fence<T>
    decreases |tokens|
  {
    if tokens == [] then Fence(initial, 0, false)
    else Observe(Watch(initial, tokens[..|tokens| - 1]), tokens[|tokens| - 1])
  }

  function Captured<T>(f: Fence<T>, project: Checkpoint): Capture<T> { Capture(project, f.token, f.generation) }

  predicate IsCurrent<T(==)>(f: Fence<T>, c: Capture<T>, project: Checkpoint, token: T) {
    !f.exhausted && c.generation == f.generation && c.token == f.token && token == f.token && c.project == project
  }

  /** The token before observation k: the one observed just before, or the initial one. */
  function Before<T>(initial: T, tokens: seq<T>, k: nat): T
    requires k <= |tokens|
  {
    if k == 0 then initial else tokens[k - 1]
  }

  function Changes<T(==)>(initial: T, tokens: seq<T>): nat
    decreases |tokens|
  {
    if tokens == [] then 0
    else
      Changes(initial, tokens[..|tokens| - 1])
      + if tokens[|tokens| - 1] != Before(initial, tokens, |tokens| - 1) then 1 else 0
  }

  /** The generation counts the changes observed; one more than it can count exhausts the fence for good. */
  lemma {:induction false} GenerationCountsChanges<T>(initial: T, tokens: seq<T>)
    ensures var f, changes := Watch(initial, tokens), Changes(initial, tokens);
            && (f.exhausted <==> changes > MAX_SAFE_INTEGER)
            && f.generation == (if f.exhausted then MAX_SAFE_INTEGER else changes)
            && (!f.exhausted ==> f.token == Before(initial, tokens, |tokens|))
    decreases |tokens|
  {
    if tokens != [] {
      GenerationCountsChanges(initial, tokens[..|tokens| - 1]);
      assert Before(initial, tokens, |tokens| - 1) == Before(initial, tokens[..|tokens| - 1], |tokens| - 1);
    }
  }

  /** No observation from i up to j differed from the one before it. */
  ghost predicate Unchanged<T(!new)>(initial: T, tokens: seq<T>, i: nat, j: nat)
    requires i <= j <= |tokens|
  {
    forall k :: i <= k < j ==> tokens[k] == Before(initial, tokens, k)
  }

  lemma {:induction false} ChangesBetween<T(!new)>(initial: T, tokens: seq<T>, i: nat)
    requires i <= |tokens|
    ensures Changes(initial, tokens[..i]) <= Changes(initial, tokens)
    ensures Changes(initial, tokens[..i]) == Changes(initial, tokens) <==> Unchanged(initial, tokens, i, |tokens|)
    decreases |tokens|
  {
    if i == |tokens| {
      assert tokens[..i] == tokens;
    } else {
      var front := tokens[..|tokens| - 1];
      ChangesBetween(initial, front, i);
      assert front[..i] == tokens[..i];
      forall k | 0 <= k <= |front| ensures Before(initial, front, k) == Before(initial, tokens, k) {
      }
      assert Unchanged(initial, tokens, i, |tokens|)
             <==> Unchanged(initial, front, i, |front|) && tokens[|front|] == Before(initial, tokens, |front|);
    }
  }

  /**
   A capture is current if and only if the fence is not exhausted, the project is the same, the token
   asked about is the one held, and no change at all was observed since, even one back to the same token.
   */
  lemma CurrentIffNothingChanged<T(!new)>(initial: T, tokens: seq<T>, i: nat, captured: Checkpoint, project: Checkpoint,
                                          token: T)
    requires i <= |tokens|
    ensures IsCurrent(Watch(initial, tokens), Captured(Watch(initial, tokens[..i]), captured), project, token)
            <==> && Changes(initial, tokens) <= MAX_SAFE_INTEGER && captured == project
                 && token == Before(initial, tokens, |tokens|)
                 && Unchanged(initial, tokens, i, |tokens|)
  {
    GenerationCountsChanges(initial, tokens);
    GenerationCountsChanges(initial, tokens[..i]);
    ChangesBetween(initial, tokens, i);
    assert Before(initial, tokens[..i], i) == Before(initial, tokens, i);
    if Unchanged(initial, tokens, i, |tokens|) { StaysTheSame(initial, tokens, i, |tokens|); }
  }

  lemma {:induction false} StaysTheSame<T(!new)>(initial: T, tokens: seq<T>, i: nat, j: nat)
    requires i <= j <= |tokens| && Unchanged(initial, tokens, i, j)
    ensures Before(initial, tokens, j) == Before(initial, tokens, i)
    decreases j
  {
    if i < j { StaysTheSame(initial, tokens, i, j - 1); }
  }

  /** A token that leaves and comes back does not revive a capture. */
  lemma ReturningTokenDoesNotRevive<T(!new)>(a: T, b: T, project: Checkpoint)
    requires a != b
    ensures Watch(a, [b, a]).token == a
    ensures !IsCurrent(Watch(a, [b, a]), Captured(Watch(a, []), project), project, a)
  {
    assert [b, a][..0] == [] && [b, a][..1] == [b] && [b][..0] == [];
    CurrentIffNothingChanged(a, [b, a], 0, project, project, a);
    assert [b, a][0] != Before(a, [b, a], 0);
    assert Watch(a, [b]) == Fence(b, 1, false);
  }

  /** createBankAuthorityDelayFence. */
  class DelayFence<T(==)> {
    var semanticToken: T
    var generation: int
    var exhausted: bool
    ghost const initial: T
    ghost var observed: seq<T>

    ghost predicate Valid()
      reads this
    {
      Fence(semanticToken, generation, exhausted) == Watch(initial, observed)
    }

    constructor (initialSemanticToken: T)
      ensures Valid() && initial == initialSemanticToken && observed == []
    {
      semanticToken, generation, exhausted := initialSemanticToken, 0, false;
      initial, observed := initialSemanticToken, [];
    }

    method Note(nextSemanticToken: T) returns (changed: bool)
      requires Valid()
      modifies this
      ensures Valid() && observed == old(observed) + [nextSemanticToken]
      ensures changed <==> !old(exhausted) && nextSemanticToken != old(semanticToken)
    {
      observed := observed + [nextSemanticToken];
      assert observed[..|observed| - 1] == old(observed);
      if exhausted || nextSemanticToken == semanticToken { return false; }
      semanticToken := nextSemanticToken;
      if generation >= MAX_SAFE_INTEGER {
        exhausted := true;
        return true;
      }
      generation := generation + 1;
      return true;
    }

    method Take(project: Checkpoint) returns (c: Capture<T>)
      requires Valid()
      ensures c == Captured(Watch(initial, observed), project)
    {
      c := Capture(project, semanticToken, generation);
    }

    method StillCurrent(c: Capture<T>, project: Checkpoint, token: T) returns (current: bool)
      requires Valid()
      ensures current == IsCurrent(Watch(initial, observed), c, project, token)
    {
      current := !exhausted && c.generation == generation && c.token == semanticToken && token == semanticToken
      && c.project.epoch == project.epoch && c.project.revision == project.revision && c.project.hash == project.hash;
    }
  }

  // ---- the next identity ----

  /**
   The next identity is valid, unused, and one more than the largest; there is none if any identity is invalid or the
   largest is the last.
   */
  method NextBankAuthorityId(ids: seq<int>) returns (next: Option<int>)
    ensures next.Some? <==> (forall id :: id in ids ==> ValidIdentity(id)) && MAX_SAFE_INTEGER !in ids
    ensures next.Some? ==> ValidIdentity(next.value) && (forall id :: id in ids ==> id < next.value)
    ensures next.Some? ==> next.value == 1 || next.value - 1 in ids
  {
    var maximum := 0;
    for k := 0 to |ids|
      invariant forall id :: id in ids[..k] ==> ValidIdentity(id) && id <= maximum
      invariant if maximum == 0 then k == 0 else maximum in ids[..k]
    {
      assert ids[..k + 1] == ids[..k] + [ids[k]];
      if !ValidIdentity(ids[k]) {
        assert ids[k] in ids;
        return None;
      }
      if ids[k] > maximum { maximum := ids[k]; }
    }
    assert ids[..|ids|] == ids;
    next := if ValidIdentity(maximum + 1) then Some(maximum + 1) else None;
  }
}
