/**
 Which issue the integrity check of app/src/bankAuthority.ts reports: what each kind of issue says of the rows, and
 that the one reported is true of the first faulty row of the first faulty pass.
 */
module BankFaults {
  import opened Prelude
  import opened BankAuthority

  predicate Valid(id: int) { 1 <= id <= 9007199254740991 }

  predicate BankOf(w: Rows, id: int) { exists k :: 0 <= k < |w.banks| && w.banks[k].id == id }

  /** Row k is the first one of the identity. */
  predicate FirstBank(w: Rows, id: int, k: nat) {
    k < |w.banks| && w.banks[k].id == id && forall j :: 0 <= j < k ==> w.banks[j].id != id
  }

  predicate FirstCue(w: Rows, id: int, k: nat) {
    k < |w.cues| && w.cues[k].id == id && forall j :: 0 <= j < k ==> w.cues[j].id != id
  }

  predicate FirstExecutor(w: Rows, id: int, k: nat) {
    k < |w.executors| && w.executors[k].id == id && forall j :: 0 <= j < k ==> w.executors[j].id != id
  }

  /** The issue is what is wrong with row i of a pass. */
  predicate WrongWith(w: Rows, p: Pass, i: nat, x: Issue) {
    match x
    case InvalidBankId(id, index) =>
      p.OverBanks? && index == i < |w.banks| && w.banks[i].id == id && !Valid(id)
    case DuplicateBankId(id, first, index) =>
      p.OverBanks? && index == i < |w.banks| && w.banks[i].id == id && Valid(id) && first < i && FirstBank(w, id, first)
    case InvalidCueId(id, index) =>
      p.OverCues? && index == i < |w.cues| && w.cues[i].id == id && !Valid(id)
    case DuplicateCueId(id, first, index) =>
      p.OverCues? && index == i < |w.cues| && w.cues[i].id == id && Valid(id) && first < i && FirstCue(w, id, first)
    case InvalidCueBankId(cue, id, index) =>
      p.OverCues? && index == i && Valid(cue) && FirstCue(w, cue, i) && w.cues[i].bank == id && !Valid(id)
    case MissingCueBank(cue, id, index) =>
      && p.OverCues? && index == i && Valid(cue) && FirstCue(w, cue, i) && w.cues[i].bank == id && Valid(id)
      && !BankOf(w, id)
    case InvalidBankActiveCueId(bank, id, index) =>
      && p.OverActiveCues? && index == i < |w.banks| && w.banks[i].id == bank && w.banks[i].activeCue == Some(id)
      && !Valid(id)
    case MissingBankActiveCue(bank, cue, index) =>
      && p.OverActiveCues? && index == i < |w.banks| && w.banks[i].id == bank && w.banks[i].activeCue == Some(cue)
      && Valid(cue) && forall k :: 0 <= k < |w.cues| ==> w.cues[k].id != cue
    case CrossBankActiveCue(bank, cue, other, index) =>
      && p.OverActiveCues? && index == i < |w.banks| && w.banks[i].id == bank && w.banks[i].activeCue == Some(cue)
      && Valid(cue) && other != bank && exists k :: 0 <= k < |w.cues| && FirstCue(w, cue, k) && w.cues[k].bank == other
    case InvalidExecutorId(id, index) =>
      p.OverExecutors? && index == i < |w.executors| && w.executors[i].id == id && !Valid(id)
    case DuplicateExecutorId(id, first, index) =>
      && p.OverExecutors? && index == i < |w.executors| && w.executors[i].id == id && Valid(id)
      && first < i && FirstExecutor(w, id, first)
    case InvalidExecutorBankId(executor, id, index) =>
      && p.OverExecutors? && index == i && Valid(executor) && FirstExecutor(w, executor, i)
      && w.executors[i].bank == id && !Valid(id)
    case MissingExecutorBank(executor, id, index) =>
      && p.OverExecutors? && index == i && Valid(executor) && FirstExecutor(w, executor, i)
      && w.executors[i].bank == id && Valid(id) && !BankOf(w, id)
  }

  // ---- positions ----

  /** The first position of an identity, whichever way it is found. */
  lemma {:induction false} FirstAt(ids: seq<int>, id: int, k: nat)
    requires k < |ids| && ids[k] == id && forall j :: 0 <= j < k ==> ids[j] != id
    ensures FirstIndex(ids, id) == Some(k)
    decreases |ids|
  {
    var front := ids[..|ids| - 1];
    if k < |front| {
      FirstAt(front, id, k);
    } else {
      assert id !in front;
    }
  }

  lemma FirstBefore(ids: seq<int>, i: nat)
    requires i < |ids|
    ensures var f := FirstIndex(ids[..i], ids[i]);
            && (f.Some? ==> f.value < i && ids[f.value] == ids[i] && forall j :: 0 <= j < f.value ==> ids[j] != ids[i])
            && (f.None? ==> forall j :: 0 <= j < i ==> ids[j] != ids[i])
  {
    FirstIndexIsFirst(ids[..i], ids[i]);
    assert forall j :: 0 <= j < i ==> ids[..i][j] == ids[j];
    if FirstIndex(ids[..i], ids[i]).None? {
      forall j | 0 <= j < i ensures ids[j] != ids[i] { assert ids[..i][j] in ids[..i]; }
    }
  }

  lemma KnownBank(w: Rows, id: int)
    ensures id in BankIds(w.banks) <==> BankOf(w, id)
  {
    var ids := BankIds(w.banks);
    if BankOf(w, id) {
      var k :| 0 <= k < |w.banks| && w.banks[k].id == id;
      assert ids[k] in ids;
    }
    if id in ids { var k :| 0 <= k < |ids| && ids[k] == id; }
  }

  // ---- row by row ----

  lemma BankFaultIs(w: Rows, i: nat, x: Issue)
    requires i < |w.banks|
    ensures Fault(w, OverBanks, i) == Some(x) <==> WrongWith(w, OverBanks, i, x)
  {
    var ids := BankIds(w.banks);
    assert forall j :: 0 <= j < |ids| ==> w.banks[j].id == ids[j];
    FirstBefore(ids, i);
    if x.DuplicateBankId? && WrongWith(w, OverBanks, i, x) {
      FirstAt(ids[..i], x.id, x.firstIndex);
    }
  }

  lemma CueFaultIs(w: Rows, i: nat, x: Issue)
    requires i < |w.cues|
    ensures Fault(w, OverCues, i) == Some(x) <==> WrongWith(w, OverCues, i, x)
  {
    var ids := CueIds(w.cues);
    assert forall j :: 0 <= j < |ids| ==> w.cues[j].id == ids[j];
    FirstBefore(ids, i);
    KnownBank(w, w.cues[i].bank);
    if x.DuplicateCueId? && WrongWith(w, OverCues, i, x) {
      FirstAt(ids[..i], x.id, x.firstIndex);
    }
  }

  lemma ExecutorFaultIs(w: Rows, i: nat, x: Issue)
    requires i < |w.executors|
    ensures Fault(w, OverExecutors, i) == Some(x) <==> WrongWith(w, OverExecutors, i, x)
  {
    var ids := ExecutorIds(w.executors);
    assert forall j :: 0 <= j < |ids| ==> w.executors[j].id == ids[j];
    FirstBefore(ids, i);
    KnownBank(w, w.executors[i].bank);
    if x.DuplicateExecutorId? && WrongWith(w, OverExecutors, i, x) {
      FirstAt(ids[..i], x.id, x.firstIndex);
    }
  }

  lemma ActiveFaultIs(w: Rows, i: nat, x: Issue)
    requires i < |w.banks|
    ensures Fault(w, OverActiveCues, i) == Some(x) <==> WrongWith(w, OverActiveCues, i, x)
  {
    var active := w.banks[i].activeCue;
    if active.Some? {
      var ids := CueIds(w.cues);
      assert forall j :: 0 <= j < |ids| ==> w.cues[j].id == ids[j];
      FirstIndexIsFirst(ids, active.value);
      if FirstIndex(ids, active.value).None? {
        forall k | 0 <= k < |w.cues| ensures w.cues[k].id != active.value { assert ids[k] in ids; }
      } else {
        assert FirstCue(w, active.value, FirstIndex(ids, active.value).value);
        OnlyFirstCue(w, active.value, FirstIndex(ids, active.value).value);
      }
    }
  }

  lemma OnlyFirstCue(w: Rows, id: int, k: nat)
    requires FirstCue(w, id, k)
    ensures forall j: nat :: FirstCue(w, id, j) ==> j == k
  {
  }

  lemma FaultIs(w: Rows, p: Pass, i: nat, x: Issue)
    requires i < Length(w, p)
    ensures Fault(w, p, i) == Some(x) <==> WrongWith(w, p, i, x)
  {
    match p
    case OverBanks => BankFaultIs(w, i, x);
    case OverCues => CueFaultIs(w, i, x);
    case OverActiveCues => ActiveFaultIs(w, i, x);
    case OverExecutors => ExecutorFaultIs(w, i, x);
  }

  // ---- the issue reported ----

  function Order(p: Pass): nat {
    match p case OverBanks => 0 case OverCues => 1 case OverActiveCues => 2 case OverExecutors => 3
  }

  predicate Earlier(p: Pass, i: nat, q: Pass, j: nat) { Order(p) < Order(q) || (p == q && i < j) }

  ghost predicate Flawless(w: Rows, p: Pass, i: nat) { forall x :: !WrongWith(w, p, i, x) }

  lemma FlawlessIff(w: Rows, p: Pass, i: nat)
    requires i < Length(w, p)
    ensures Flawless(w, p, i) <==> Fault(w, p, i).None?
  {
    if Fault(w, p, i).Some? { FaultIs(w, p, i, Fault(w, p, i).value); }
    forall x ensures Fault(w, p, i) == Some(x) <==> WrongWith(w, p, i, x) { FaultIs(w, p, i, x); }
  }

  lemma {:induction false} FirstOfPass(before: Option<Issue>, w: Rows, p: Pass, n: nat) returns (i: nat)
    requires n <= Length(w, p)
    ensures before.Some? ==> FirstFault(before, w, p, n) == before
    ensures before.None? && FirstFault(before, w, p, n).Some? ==>
              && i < n && Fault(w, p, i) == FirstFault(before, w, p, n)
              && forall j :: 0 <= j < i ==> Fault(w, p, j).None?
  {
    i := 0;
    if n > 0 {
      i := FirstOfPass(before, w, p, n - 1);
      if before.None? && FirstFault(before, w, p, n - 1).None? {
        NoFault(before, w, p, n - 1);
        i := n - 1;
      }
    }
  }

  /** The issue says what is wrong with row i of pass p, and no row before it has anything wrong. */
  ghost predicate IsFirstFlaw(w: Rows, p: Pass, i: nat, x: Issue) {
    && i < Length(w, p) && WrongWith(w, p, i, x)
    && forall q, j: nat :: j < Length(w, q) && Earlier(q, j, p, i) ==> Flawless(w, q, j)
  }

  /** Where the first fault is, if there is one. */
  lemma FirstFlaw(w: Rows) returns (p: Pass, i: nat)
    requires FirstIssue(w).Some?
    ensures i < Length(w, p) && Fault(w, p, i) == FirstIssue(w)
    ensures forall q, j: nat :: j < Length(w, q) && Earlier(q, j, p, i) ==> Fault(w, q, j).None?
  {
    var b := AfterPass(None, w, OverBanks);
    var c := AfterPass(b, w, OverCues);
    var a := AfterPass(c, w, OverActiveCues);
    var i0 := FirstOfPass(None, w, OverBanks, |w.banks|);
    var i1 := FirstOfPass(b, w, OverCues, |w.cues|);
    var i2 := FirstOfPass(c, w, OverActiveCues, |w.banks|);
    var i3 := FirstOfPass(a, w, OverExecutors, |w.executors|);
    CleanPass(None, w, OverBanks);
    CleanPass(b, w, OverCues);
    CleanPass(c, w, OverActiveCues);
    if b.Some? { p, i := OverBanks, i0; }
    else if c.Some? { p, i := OverCues, i1; }
    else if a.Some? { p, i := OverActiveCues, i2; }
    else { p, i := OverExecutors, i3; }
  }

  /** Whatever issue is reported is exactly what is wrong with the first row that has anything wrong. */
  lemma IssueIsTheFirstFlaw(w: Rows) returns (p: Pass, i: nat)
    ensures FirstIssue(w).Some? ==> IsFirstFlaw(w, p, i, FirstIssue(w).value)
  {
    p, i := OverBanks, 0;
    if FirstIssue(w).Some? {
      p, i := FirstFlaw(w);
      FaultIs(w, p, i, FirstIssue(w).value);
      forall q, j: nat | j < Length(w, q) && Earlier(q, j, p, i) ensures Flawless(w, q, j) {
        FlawlessIff(w, q, j);
      }
    }
  }
}
