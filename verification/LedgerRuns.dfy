/**
  The capture/refund ledger over whole runs.  Captures and refunds are gated on rounded sums and the
  fee top-up rewrites the validated amount, yet rounding errors never pile up.
*/
module LedgerRuns {
  import opened ActionPayloads
  import opened ActionValidators
  import opened HistoryRuns
  import opened Money
  import opened Runs
  import opened StatisticsRuns
  import opened Transactions
  import opened Worlds
  import opened Wrappers

  /** Raw sums stay under a cent above the total; over a whole-cent total the rounded ones do not exceed it. */
  predicate InBounds(t: Transaction) {
    && 0.0 <= SumOf(Captures, t.history) < t.total + 0.01
    && 0.0 <= SumOf(Refunds, t.history) < t.total + 0.01
    && (WholeCents(t.total) ==> AmountCaptured(t) <= t.total && AmountRefunded(t) <= t.total)
  }

  /** One validated capture, whatever was captured before. */
  lemma CaptureFits(t: Transaction, amount: real, e: HistoryEntry)
    requires InBounds(t)
    requires 0.0 < amount <= RoundMoney(t.total - AmountCaptured(t) - AmountRefunded(t))
    requires e.action == ShippingGoods && e.amount == Some(amount)
    ensures var t' := t.(history := t.history + [e]);
            && InBounds(t')
            && SumOf(Captures, t'.history) + AmountRefunded(t) < t.total + 0.01
            && (WholeCents(t.total) ==> AmountCaptured(t') + AmountRefunded(t') <= t.total)
  {
    SumOfPush(Captures, t.history, e);
    SumOfPush(Refunds, t.history, e);
    RoundingErrorOfSums(t);
    var c := SumOf(Captures, t.history);
    RoundingError(c);
    RoundingError(t.total - AmountCaptured(t) - AmountRefunded(t));
    if WholeCents(t.total) {
      AllowedIsExact(t);
      WholeCaptureFits(t, amount);
    }
  }

  lemma WholeCaptureFits(t: Transaction, amount: real)
    requires WholeCents(t.total)
    requires amount <= t.total - AmountCaptured(t) - AmountRefunded(t)
    ensures RoundMoney(SumOf(Captures, t.history) + amount) <= t.total - AmountRefunded(t)
  {
    var c := SumOf(Captures, t.history);
    var k := (t.total * 100.0).Floor - RoundToCents(c) - RoundToCents(SumOf(Refunds, t.history));
    RoundingMonotone(c + amount, c + Cents(k));
    RoundingShift(c, k);
  }

  /** One validated refund; a return counts like one. */
  lemma RefundFits(t: Transaction, amount: real, e: HistoryEntry)
    requires InBounds(t)
    requires 0.0 < amount <= RoundMoney(t.total - AmountRefunded(t))
    requires Counts(Refunds, e.action) && e.amount == Some(amount)
    ensures InBounds(t.(history := t.history + [e]))
  {
    SumOfPush(Captures, t.history, e);
    SumOfPush(Refunds, t.history, e);
    RawRefundFits(t.total, SumOf(Refunds, t.history), amount);
    if WholeCents(t.total) {
      WholeRefundFits(t.total, SumOf(Refunds, t.history), amount);
    }
  }

  /** The two roundings in between cost less than the cent that is allowed for. */
  lemma RawRefundFits(total: real, refunded: real, amount: real)
    requires amount <= RoundMoney(total - RoundMoney(refunded))
    ensures refunded + amount < total + 0.01
  {
    RoundingError(refunded);
    RoundingError(total - RoundMoney(refunded));
  }

  lemma WholeRefundFits(total: real, refunded: real, amount: real)
    requires WholeCents(total) && amount <= RoundMoney(total - RoundMoney(refunded))
    ensures RoundMoney(refunded + amount) <= total
  {
    var k := (total * 100.0).Floor - RoundToCents(refunded);
    assert total - RoundMoney(refunded) == Cents(k);
    RoundingWhole(k);
    RoundingMonotone(refunded + amount, refunded + Cents(k));
    RoundingShift(refunded, k);
  }

  /** An entry the ledger does not count. */
  lemma OtherFits(t: Transaction, e: HistoryEntry)
    requires InBounds(t)
    requires !Counts(Captures, e.action) && !Counts(Refunds, e.action)
    ensures InBounds(t.(history := t.history + [e]))
  {
    SumOfPush(Captures, t.history, e);
    SumOfPush(Refunds, t.history, e);
  }

  /** What the validators let a capture or a refund take. */
  function Allowed(t: Transaction, action: Action): real {
    if action == ShippingGoods then RoundMoney(t.total - AmountCaptured(t) - AmountRefunded(t))
    else RoundMoney(t.total - AmountRefunded(t))
  }

  /** The amount is validated, and on a capture no items overwrite it. */
  predicate Gated(fields: Option<Fields>, action: Action, skipValidation: bool) {
    && Validated(action) && !skipValidation && Truthy(AmountOf(fields))
    && (action == ShippingGoods ==> fields.value.paymentItems.None?)
  }

  function ReturnOf(fields: Option<Fields>): Option<real> {
    if fields.Some? then fields.value.paymentReturn else None
  }

  /** A payment micro's refund is overwritten with the returned amount, which no validator has seen. */
  predicate Overwritten(fields: Option<Fields>, action: Action, prepared: bool) {
    action == Refund && prepared && Truthy(ReturnOf(fields)) && ReturnOf(fields) != AmountOf(fields)
  }

  /**
    A capture, refund or return either has its recorded amount validated, or names, as the returned
    amount, in its items, as its action's own amount or by default, an amount that fits.
  */
  predicate Admissible(t: Transaction, fields: Option<Fields>, action: Action, skipValidation: bool, prepared: bool) {
    Counts(Captures, action) || Counts(Refunds, action) ==>
      || (Gated(fields, action, skipValidation) && !Overwritten(fields, action, prepared))
      || 0.0 < RecordedAmount(t, action, RunFields(t, fields, action, prepared)) <= Allowed(t, action)
  }

  /** Top-up included, the recorded amount is positive and within the validated bound. */
  lemma RecordedIsValidated(t: Transaction, fields: Option<Fields>, action: Action, prepared: bool, after: Transaction)
    requires Gated(fields, action, false) && !Overwritten(fields, action, prepared)
    requires BeforeActionPasses(t, fields, action, false)
    ensures 0.0 < RecordedAmount(after, action, RunFields(t, fields, action, prepared)) <= Allowed(t, action)
  {
    ValidatedAmountFits(t, fields, action);
  }

  lemma ValidatedAmountFits(t: Transaction, fields: Option<Fields>, action: Action)
    requires Gated(fields, action, false) && BeforeActionPasses(t, fields, action, false)
    ensures 0.0 < AmountOf(fields).value <= Allowed(t, action)
  {
    var amount := fields.value.amount.value;
    assert AmountAccepted(t, amount, action);
    assert ValidateAmount(TransactionValidator, t, amount, action).Pass?;
    assert ValidateAmount(CaptureValidator, t, amount, action).Pass?;
    assert ValidateAmount(RefundValidator, t, amount, action).Pass?;
  }

  /**
    Exactly when a validated refund records a positive amount within the bound: it goes to a third party,
    or no amount to return is named, or that amount fits by itself.
  */
  lemma RefundRecordsExactly(t: Transaction, fields: Option<Fields>, prepared: bool, after: Transaction)
    requires Gated(fields, Refund, false) && BeforeActionPasses(t, fields, Refund, false)
    ensures 0.0 < RecordedAmount(after, Refund, RunFields(t, fields, Refund, prepared)) <= Allowed(t, Refund)
            <==> !prepared || !Truthy(ReturnOf(fields)) || 0.0 < ReturnOf(fields).value <= Allowed(t, Refund)
  {
    ValidatedAmountFits(t, fields, Refund);
  }

  /** An amount of 10 is validated, 500 to return is run and recorded, and the ledger is out of bounds. */
  lemma ReturnedAmountBreaksBounds(t: Transaction, fields: Fields)
    requires t.total == 100.0 && t.history == []
    requires fields.amount == Some(10.0) && fields.paymentReturn == Some(500.0) && fields.paymentItems.None?
    ensures var run := RunFields(t, Some(fields), Refund, true);
            && InBounds(t) && Gated(Some(fields), Refund, false) && BeforeActionPasses(t, Some(fields), Refund, false)
            && AmountOf(run) == Some(500.0) && RecordedAmount(t, Refund, run) == 500.0
            && !InBounds(t.(history := t.history + [ToEntry(ActionMessage(t, Refund, run))]))
  {
    NewLedgerInBounds(t);
    RoundingWhole(0);
    RoundingWhole(10000);
    RefundAcceptedInGeneral(t, 10.0);
    var e := ToEntry(ActionMessage(t, Refund, RunFields(t, Some(fields), Refund, true)));
    SumOfPush(Refunds, t.history, e);
  }

  lemma ActionFits(t: Transaction, fields: Option<Fields>, action: Action, skip: bool, prepared: bool, after: Transaction)
    requires InBounds(t) && Admissible(t, fields, action, skip, prepared)
    requires BeforeActionPasses(t, fields, action, skip)
    requires after.total == t.total && after.history == t.history
    ensures var e := ToEntry(ActionMessage(after, action, RunFields(t, fields, action, prepared)));
            InBounds(after.(history := after.history + [e]))
  {
    var e := ToEntry(ActionMessage(after, action, RunFields(t, fields, action, prepared)));
    if Gated(fields, action, skip) && !Overwritten(fields, action, prepared) {
      RecordedIsValidated(t, fields, action, prepared, after);
    }
    if Counts(Captures, action) {
      CaptureFits(after, e.amount.value, e);
    } else if Counts(Refunds, action) {
      RefundFits(after, e.amount.value, e);
    } else {
      OtherFits(after, e);
    }
  }

  /** A step that keeps the total of this document and takes from it only what is admissible. */
  predicate LedgerStep(w: World, s: Step, uuid: string)
    requires uuid in w.store
  {
    && !Disturbs(s, uuid)
    && (s.UpdateStep? && s.c.uuid == uuid ==> s.c.total == w.store[uuid].total)
    && (s.ActionStep? && s.uuid == uuid ==>
          Admissible(w.store[uuid], s.fields, s.action, s.skipValidation, Prepares(s.rpc)))
  }

  /** Every step is a ledger step of the state it is made in. */
  predicate LedgerRun(w: World, steps: seq<Step>, uuid: string) {
    steps == [] ||
    var before := Run(w, steps[..|steps| - 1]);
    && LedgerRun(w, steps[..|steps| - 1], uuid)
    && uuid in before.store && LedgerStep(before, steps[|steps| - 1], uuid)
  }

  lemma ActionStepFits(w: World, s: Step, uuid: string)
    requires WellKeyed(w.store) && uuid in w.store && InBounds(w.store[uuid])
    requires s.ActionStep? && LedgerStep(w, s, uuid)
    ensures var w' := Next(w, s);
            uuid in w'.store && w'.store[uuid].total == w.store[uuid].total && InBounds(w'.store[uuid])
  {
    if s.uuid in w.store && ActionRuns(w, w.store[s.uuid], s.fields, s.action, s.skipValidation, s.rpc) {
      var t := w.store[s.uuid];
      var w1 := OnRpcResult(w, t, s.rpc);
      RpcKeepsHistory(w, t, s.rpc, uuid);
      RpcKeepsHistory(w, t, s.rpc, s.uuid);
      RpcKeepsTotal(w, t, s.rpc, uuid);
      var m := MessageAfter(w1, t, s.fields, s.action, s.rpc);
      assert Next(w, s) == OnCompleted(w1, s.uuid, m);
      CompletedStores(w1, s.uuid, m, uuid);
      if s.uuid == uuid {
        ActionFits(t, s.fields, s.action, s.skipValidation, Prepares(s.rpc), w1.store[uuid]);
      }
    } else {
      UnrecordedAction(w, s, uuid);
    }
  }

  lemma UpdateKeepsTotal(w: World, c: Checkout, uuid: string)
    requires WellKeyed(w.store) && uuid in w.store
    ensures uuid in OnUpdate(w, c).store
    ensures OnUpdate(w, c).store[uuid].total == if uuid == c.uuid then c.total else w.store[uuid].total
  {
    if c.uuid in w.store {
      UpdateOfStored(w, c);
    } else {
      UpdateOfMissing(w, c);
    }
  }

  lemma MessageStepFits(w: World, s: Step, uuid: string)
    requires uuid in w.store && InBounds(w.store[uuid])
    requires s.BusCompletedStep? || s.BusHistoryStep? || s.NoteStep?
    ensures var w' := Next(w, s);
            uuid in w'.store && w'.store[uuid].total == w.store[uuid].total && InBounds(w'.store[uuid])
  {
    if s.NoteStep? {
      NoteWrites(w, s.uuid, s.note, uuid);
      OtherFits(w.store[uuid], ToEntry(NoteMessage(s.note)));
    } else {
      BusStep(w, s, uuid);
      OtherFitsIfAllowed(w.store[uuid], s.m);
    }
  }

  lemma StepInBounds(w: World, s: Step, uuid: string)
    requires WellKeyed(w.store) && uuid in w.store && InBounds(w.store[uuid])
    requires LedgerStep(w, s, uuid)
    ensures var w' := Next(w, s);
            uuid in w'.store && w'.store[uuid].total == w.store[uuid].total && InBounds(w'.store[uuid])
  {
    match s
    case ActionStep(_, _, _, _, _) => ActionStepFits(w, s, uuid);
    case UpdateStep(c) =>
      UpdateWrites(w, c, uuid);
      UpdateKeepsTotal(w, c, uuid);
    case MigrateStep(c) => OtherMigration(w, c, uuid);
    case BusCompletedStep(_, _) => MessageStepFits(w, s, uuid);
    case BusHistoryStep(_, _) => MessageStepFits(w, s, uuid);
    case NoteStep(_, _) => MessageStepFits(w, s, uuid);
    case RefreshStep(_, _) => RefreshWrites(w, s, uuid);
    case _ => QuietStep(w, s, uuid);
  }

  lemma OtherFitsIfAllowed(t: Transaction, m: Message)
    requires InBounds(t)
    ensures AllowedFromBus(m.action) ==> InBounds(t.(history := t.history + [ToEntry(m)]))
  {
    if AllowedFromBus(m.action) {
      OtherFits(t, ToEntry(m));
    }
  }

  /**
    However many captures, refunds and returns a run makes, mixed with bus messages, updates that keep
    the total and steps on other documents, the raw sums stay below total + 0.01 and, over a whole-cent
    total, amount_captured and amount_refunded never exceed the total.
  */
  lemma {:induction false} LedgerStaysInBounds(w: World, steps: seq<Step>, uuid: string)
    requires WellKeyed(w.store) && uuid in w.store && InBounds(w.store[uuid])
    requires LedgerRun(w, steps, uuid)
    ensures var w' := Run(w, steps);
            uuid in w'.store && w'.store[uuid].total == w.store[uuid].total && InBounds(w'.store[uuid])
  {
    if steps != [] {
      var prefix, last := steps[..|steps| - 1], steps[|steps| - 1];
      LedgerStaysInBounds(w, prefix, uuid);
      RunKeepsKeys(w, prefix);
      StepInBounds(Run(w, prefix), last, uuid);
    }
  }

  /** What can be told from a step alone: it keeps this total and all it takes is validated. */
  predicate GatedStep(s: Step, uuid: string, total: real) {
    && !Disturbs(s, uuid)
    && (s.UpdateStep? && s.c.uuid == uuid ==> s.c.total == total)
    && (s.ActionStep? && s.uuid == uuid && (Counts(Captures, s.action) || Counts(Refunds, s.action))
        ==> Gated(s.fields, s.action, s.skipValidation) && !Overwritten(s.fields, s.action, Prepares(s.rpc)))
  }

  /** A run of validated steps needs no look at the states in between. */
  lemma {:induction false} GatedStepsAreLedgerRun(w: World, steps: seq<Step>, uuid: string)
    requires WellKeyed(w.store) && uuid in w.store && InBounds(w.store[uuid])
    requires forall s | s in steps :: GatedStep(s, uuid, w.store[uuid].total)
    ensures LedgerRun(w, steps, uuid)
  {
    if steps != [] {
      var prefix := steps[..|steps| - 1];
      GatedStepsAreLedgerRun(w, prefix, uuid);
      LedgerStaysInBounds(w, prefix, uuid);
      assert GatedStep(steps[|steps| - 1], uuid, w.store[uuid].total);
    }
  }

  /** A document nothing was captured from or refunded on yet starts in bounds. */
  lemma NewLedgerInBounds(t: Transaction)
    requires t.total >= 0.0
    requires forall e | e in t.history :: !Counts(Captures, e.action) && !Counts(Refunds, e.action)
    ensures InBounds(t)
  {
    NothingCounted(Captures, t.history);
    NothingCounted(Refunds, t.history);
    RoundingWhole(0);
  }

  lemma {:induction false} NothingCounted(ledger: Ledger, history: seq<HistoryEntry>)
    requires forall e | e in history :: !Counts(ledger, e.action)
    ensures SumOf(ledger, history) == 0.0
  {
    if history != [] {
      NothingCounted(ledger, history[..|history| - 1]);
      assert history[|history| - 1] in history;
    }
  }

  /**
    In every state such a run reaches, the whole-cent rest that is advertised is what the validators
    accept, for captures and for refunds.
  */
  lemma AdvertisedIsAcceptedInRuns(w: World, steps: seq<Step>, uuid: string, amount: real)
    requires WellKeyed(w.store) && uuid in w.store && InBounds(w.store[uuid])
    requires WholeCents(w.store[uuid].total) && amount > 0.0
    requires LedgerRun(w, steps, uuid)
    ensures uuid in Run(w, steps).store
    ensures var t := Run(w, steps).store[uuid];
            && (AmountAccepted(t, amount, ShippingGoods) <==> amount <= AmountCaptureRest(t))
            && (AmountAccepted(t, amount, Refund) <==> amount <= t.total - AmountRefunded(t))
            && (t.amount <= t.total && WholeCents(t.amount) && amount <= AmountRefundRest(t)
                ==> AmountAccepted(t, amount, Refund))
  {
    LedgerStaysInBounds(w, steps, uuid);
    var t := Run(w, steps).store[uuid];
    AdvertisedCaptureIsAccepted(t, amount);
    RefundAcceptedUpTo(t, amount);
    if WholeCents(t.amount) {
      AdvertisedRefundIsAccepted(t);
    }
  }

  // ---- actions that overlap ----

  /** A doAction call with the document it was handed, which may be out of date by the time it records. */
  datatype ActionCall = ActionCall(loaded: Transaction, action: Action, fields: Option<Fields>, skipValidation: bool,
                                   rpc: RpcOutcome)

  function Acting(w: World, c: ActionCall): World {
    DoAction(w, c.loaded, c.fields, c.action, c.skipValidation, c.rpc)
  }

  function ActAll(w: World, calls: seq<ActionCall>): World {
    if calls == [] then w else Acting(ActAll(w, calls[..|calls| - 1]), calls[|calls| - 1])
  }

  /** A call that is validated on its document and answered to the end, and so recorded on what is stored by then. */
  predicate Goes(c: ActionCall) {
    Reaches(c.loaded, c.fields, c.action, c.skipValidation, c.rpc) && Completes(c.rpc)
  }

  function Recorded(stored: Transaction, c: ActionCall): real {
    RecordedAmount(stored, c.action, RunFields(c.loaded, c.fields, c.action, Prepares(c.rpc)))
  }

  /** What such a call adds to a ledger of the stored document. */
  function TakenBy(ledger: Ledger, stored: Transaction, c: ActionCall): real {
    if Goes(c) && Counts(ledger, c.action) then Recorded(stored, c) else 0.0
  }

  function Taken(ledger: Ledger, stored: Transaction, calls: seq<ActionCall>): real {
    if calls == [] then 0.0
    else Taken(ledger, stored, calls[..|calls| - 1]) + TakenBy(ledger, stored, calls[|calls| - 1])
  }

  lemma StaleRun(w: World, c: ActionCall, uuid: string)
    requires c.loaded.uuid == uuid && uuid in w.store
    ensures var s, w' := w.store[uuid], Acting(w, c);
            && uuid in w'.store
            && w'.store[uuid].total == s.total
            && (!Goes(c) ==> w'.store[uuid].history == s.history)
            && (Goes(c) ==> exists e :: w'.store[uuid].history == s.history + [e]
                                        && e.action == c.action && e.amount == Some(Recorded(s, c)))
  {
    RpcKeepsHistory(w, c.loaded, c.rpc, uuid);
    RpcKeepsTotal(w, c.loaded, c.rpc, uuid);
    if Goes(c) {
      var w1 := OnRpcResult(w, c.loaded, c.rpc);
      var m := MessageAfter(w1, c.loaded, c.fields, c.action, c.rpc);
      CompletedStores(w1, uuid, m, uuid);
      assert Acting(w, c) == OnCompleted(w1, uuid, m);
      assert ToEntry(m).action == c.action && ToEntry(m).amount == Some(Recorded(w.store[uuid], c));
    }
  }

  /** An action validated on the document it was handed and recorded on the one stored by then. */
  lemma StaleAction(w: World, c: ActionCall, uuid: string, ledger: Ledger)
    requires c.loaded.uuid == uuid && uuid in w.store
    ensures var s, w' := w.store[uuid], Acting(w, c);
            && uuid in w'.store
            && w'.store[uuid].total == s.total
            && SumOf(ledger, w'.store[uuid].history) == SumOf(ledger, s.history) + TakenBy(ledger, s, c)
  {
    StaleRun(w, c, uuid);
    var s, s' := w.store[uuid], Acting(w, c).store[uuid];
    if Goes(c) {
      var e :| s'.history == s.history + [e] && e.action == c.action && e.amount == Some(Recorded(s, c));
      SumOfPush(ledger, s.history, e);
    }
  }

  /** Of the stored document only the total decides what is taken. */
  lemma TakenOnTotal(ledger: Ledger, a: Transaction, b: Transaction, c: ActionCall)
    requires a.total == b.total
    ensures TakenBy(ledger, a, c) == TakenBy(ledger, b, c)
  {
  }

  /** Calls about one document, whenever each of them loaded it. */
  predicate AllOn(calls: seq<ActionCall>, uuid: string) {
    forall c | c in calls :: c.loaded.uuid == uuid
  }

  /** However many actions are validated on whatever states of a document, the stored sums grow by what they take. */
  lemma {:induction false} OverlappingActionsAdd(w: World, calls: seq<ActionCall>, uuid: string, ledger: Ledger)
    requires uuid in w.store && AllOn(calls, uuid)
    ensures var s, w' := w.store[uuid], ActAll(w, calls);
            && uuid in w'.store
            && w'.store[uuid].total == s.total
            && SumOf(ledger, w'.store[uuid].history) == SumOf(ledger, s.history) + Taken(ledger, s, calls)
  {
    if calls != [] {
      var prefix, last := calls[..|calls| - 1], calls[|calls| - 1];
      OverlappingActionsAdd(w, prefix, uuid, ledger);
      assert last in calls;
      StaleAction(ActAll(w, prefix), last, uuid, ledger);
      TakenOnTotal(ledger, ActAll(w, prefix).store[uuid], w.store[uuid], last);
    }
  }

  /** A raw sum with an amount added, rounded once. */
  function RoundedWith(ledger: Ledger, s: Transaction, amount: real): real {
    RoundMoney(SumOf(ledger, s.history) + amount)
  }

  /**
    Why the runs are serial, and exactly when they need not be: however many actions on a document are
    validated on earlier states of it before they are recorded, captures and refunds together stay
    within the total if and only if the raw sums of the stored document and all that is taken do, each
    rounded once; and likewise refunds alone.
  */
  lemma OverlappingActionsExactly(w: World, calls: seq<ActionCall>, uuid: string)
    requires uuid in w.store && AllOn(calls, uuid)
    ensures var s, w' := w.store[uuid], ActAll(w, calls);
            && uuid in w'.store
            && var s' := w'.store[uuid];
            && s'.total == s.total
            && AmountCaptured(s') == RoundedWith(Captures, s, Taken(Captures, s, calls))
            && AmountRefunded(s') == RoundedWith(Refunds, s, Taken(Refunds, s, calls))
            && (AmountCaptured(s') + AmountRefunded(s') <= s'.total
                <==> RoundedWith(Captures, s, Taken(Captures, s, calls))
                     + RoundedWith(Refunds, s, Taken(Refunds, s, calls)) <= s.total)
            && (AmountRefunded(s') <= s'.total <==> RoundedWith(Refunds, s, Taken(Refunds, s, calls)) <= s.total)
  {
    OverlappingActionsAdd(w, calls, uuid, Captures);
    OverlappingActionsAdd(w, calls, uuid, Refunds);
    var s := w.store[uuid];
    RoundedAfter(s, ActAll(w, calls).store[uuid], Taken(Captures, s, calls), Taken(Refunds, s, calls));
  }

  /** What the amounts become when the raw sums grow by so much. */
  lemma RoundedAfter(s: Transaction, s': Transaction, captured: real, refunded: real)
    requires SumOf(Captures, s'.history) == SumOf(Captures, s.history) + captured
    requires SumOf(Refunds, s'.history) == SumOf(Refunds, s.history) + refunded
    ensures AmountCaptured(s') == RoundedWith(Captures, s, captured)
    ensures AmountRefunded(s') == RoundedWith(Refunds, s, refunded)
  {
  }

  predicate TakesWholeCents(ledger: Ledger, stored: Transaction, calls: seq<ActionCall>) {
    forall c | c in calls :: WholeCents(TakenBy(ledger, stored, c))
  }

  lemma {:induction false} TakenIsWhole(ledger: Ledger, stored: Transaction, calls: seq<ActionCall>)
    requires TakesWholeCents(ledger, stored, calls)
    ensures WholeCents(Taken(ledger, stored, calls))
  {
    if calls == [] {
      RoundingWhole(0);
    } else {
      var prefix, last := calls[..|calls| - 1], calls[|calls| - 1];
      TakenIsWhole(ledger, stored, prefix);
      assert last in calls;
      WholePlusWhole(Taken(ledger, stored, prefix), TakenBy(ledger, stored, last));
    }
  }

  lemma RoundedWithWhole(ledger: Ledger, s: Transaction, amount: real)
    requires WholeCents(amount)
    ensures RoundedWith(ledger, s, amount) == RoundMoney(SumOf(ledger, s.history)) + amount
  {
    RoundingShift(SumOf(ledger, s.history), (amount * 100.0).Floor);
  }

  /** Where all that is taken is whole cents: exactly when it fits in what the stored document has left. */
  lemma OverlappingInWholeCents(w: World, calls: seq<ActionCall>, uuid: string)
    requires uuid in w.store && AllOn(calls, uuid)
    requires TakesWholeCents(Captures, w.store[uuid], calls) && TakesWholeCents(Refunds, w.store[uuid], calls)
    ensures var s, w' := w.store[uuid], ActAll(w, calls);
            && uuid in w'.store
            && var s' := w'.store[uuid];
            && s'.total == s.total
            && AmountCaptured(s') == AmountCaptured(s) + Taken(Captures, s, calls)
            && AmountRefunded(s') == AmountRefunded(s) + Taken(Refunds, s, calls)
            && (AmountCaptured(s') + AmountRefunded(s') <= s'.total
                <==> Taken(Captures, s, calls) + Taken(Refunds, s, calls)
                     <= s.total - AmountCaptured(s) - AmountRefunded(s))
            && (AmountRefunded(s') <= s'.total <==> Taken(Refunds, s, calls) <= s.total - AmountRefunded(s))
  {
    var s := w.store[uuid];
    OverlappingActionsAdd(w, calls, uuid, Captures);
    OverlappingActionsAdd(w, calls, uuid, Refunds);
    TakenIsWhole(Captures, s, calls);
    TakenIsWhole(Refunds, s, calls);
    WholeAfter(s, ActAll(w, calls).store[uuid], Taken(Captures, s, calls), Taken(Refunds, s, calls));
  }

  lemma WholeAfter(s: Transaction, s': Transaction, captured: real, refunded: real)
    requires s'.total == s.total && WholeCents(captured) && WholeCents(refunded)
    requires SumOf(Captures, s'.history) == SumOf(Captures, s.history) + captured
    requires SumOf(Refunds, s'.history) == SumOf(Refunds, s.history) + refunded
    ensures AmountCaptured(s') == AmountCaptured(s) + captured
    ensures AmountRefunded(s') == AmountRefunded(s) + refunded
    ensures AmountCaptured(s') + AmountRefunded(s') <= s'.total
            <==> captured + refunded <= s.total - AmountCaptured(s) - AmountRefunded(s)
    ensures AmountRefunded(s') <= s'.total <==> refunded <= s.total - AmountRefunded(s)
  {
    RoundedWithWhole(Captures, s, captured);
    RoundedWithWhole(Refunds, s, refunded);
    RoundedAfter(s, s', captured, refunded);
  }

  /** Two captures of one amount, from a document of 100 nothing was taken from yet. */
  lemma TwoCaptures(w: World, t: Transaction, fields: Fields, amount: real)
    requires t.uuid in w.store && w.store[t.uuid] == t
    requires t.total == 100.0 && t.history == [] && t.deliveryFee.None? && t.paymentFee.None?
    requires 0.0 < amount <= 100.0 && fields.amount == Some(amount) && fields.paymentItems.None?
    ensures var c := ActionCall(t, ShippingGoods, Some(fields), false, ThirdPartyResult(None, None));
            var w' := ActAll(w, [c, c]);
            && Taken(Captures, t, [c, c]) == amount + amount
            && t.uuid in w'.store
            && SumOf(Captures, w'.store[t.uuid].history) == amount + amount
            && SumOf(Refunds, w'.store[t.uuid].history) == 0.0
  {
    var c := ActionCall(t, ShippingGoods, Some(fields), false, ThirdPartyResult(None, None));
    FirstCapture(t, fields, amount, c);
    TakenTwice(Captures, t, c);
    TakenTwice(Refunds, t, c);
    OverlappingActionsAdd(w, [c, c], t.uuid, Captures);
    OverlappingActionsAdd(w, [c, c], t.uuid, Refunds);
  }

  lemma FirstCapture(t: Transaction, fields: Fields, amount: real, c: ActionCall)
    requires t.total == 100.0 && t.history == [] && t.deliveryFee.None? && t.paymentFee.None?
    requires 0.0 < amount <= 100.0 && fields.amount == Some(amount) && fields.paymentItems.None?
    requires c == ActionCall(t, ShippingGoods, Some(fields), false, ThirdPartyResult(None, None))
    ensures TakenBy(Captures, t, c) == amount && TakenBy(Refunds, t, c) == 0.0
  {
    NothingCapturedYet(t, amount);
  }

  lemma TakenTwice(ledger: Ledger, t: Transaction, c: ActionCall)
    ensures Taken(ledger, t, [c, c]) == TakenBy(ledger, t, c) + TakenBy(ledger, t, c)
  {
    assert [c, c][..1] == [c] && [c][..0] == [];
    assert Taken(ledger, t, [c]) == TakenBy(ledger, t, c);
  }

  /** Two captures of 60 that were both loaded before either was recorded together capture 120 of 100. */
  lemma OverlappingCapturesExceed(w: World, t: Transaction, fields: Fields)
    requires t.uuid in w.store && w.store[t.uuid] == t
    requires t.total == 100.0 && t.history == [] && t.deliveryFee.None? && t.paymentFee.None?
    requires fields.amount == Some(60.0) && fields.paymentItems.None?
    ensures var c := ActionCall(t, ShippingGoods, Some(fields), false, ThirdPartyResult(None, None));
            var w' := ActAll(w, [c, c]);
            && t.uuid in w'.store && AmountCaptured(w'.store[t.uuid]) == 120.0
  {
    TwoCaptures(w, t, fields, 60.0);
    RoundingWhole(12000);
  }

  /** Fractions of a cent can slip through: twice 50.002 is more than 100, and is rounded to it. */
  lemma OverlappingFractionsFit(w: World, t: Transaction, fields: Fields)
    requires t.uuid in w.store && w.store[t.uuid] == t
    requires t.total == 100.0 && t.history == [] && t.deliveryFee.None? && t.paymentFee.None?
    requires fields.amount == Some(50.002) && fields.paymentItems.None?
    ensures var c := ActionCall(t, ShippingGoods, Some(fields), false, ThirdPartyResult(None, None));
            var w' := ActAll(w, [c, c]);
            && Taken(Captures, t, [c, c]) > 100.0
            && t.uuid in w'.store && AmountCaptured(w'.store[t.uuid]) + AmountRefunded(w'.store[t.uuid]) == 100.0
  {
    TwoCaptures(w, t, fields, 50.002);
    RoundingWhole(0);
    assert RoundToCents(100.004) == 10000;
  }

  // ---- captures with items ----

  /**
    Read off the document and the payload: what the items are worth against the advertised rest, the
    case of the fee top-up, and the case of items worth nothing, where something else is recorded.
  */
  predicate ItemsFit(t: Transaction, fields: Fields, items: seq<CartItem>, total: real) {
    var worth, rest := ItemsTotal(items), AmountCaptureRest(t);
    if worth == 0.0 then 0.0 < Fallback(fields, total) <= rest
    else if worth == rest - t.deliveryFee.GetOr(0.0) - t.paymentFee.GetOr(0.0) then rest > 0.0
    else 0.0 < worth <= rest
  }

  /**
    On a capture with items the validated amount is overwritten.  It records a positive amount of at
    most the advertised rest exactly when the items fit, and then it may be part of a ledger run.
  */
  lemma ItemsCaptureExactly(t: Transaction, fields: Fields, items: seq<CartItem>, skip: bool, prepared: bool,
                            after: Transaction)
    requires fields.paymentItems == Some(items)
    ensures 0.0 < RecordedAmount(after, ShippingGoods, RunFields(t, Some(fields), ShippingGoods, prepared)) <= AmountCaptureRest(t)
            <==> ItemsFit(t, fields, items, after.total)
    ensures Admissible(t, Some(fields), ShippingGoods, skip, prepared) <==> ItemsFit(t, fields, items, t.total)
  {
    assert ItemsOf(RunFields(t, Some(fields), ShippingGoods, prepared)) == items;
  }

  /** A purchase of one item, of which 100 less the captured amount is left. */
  predicate OneItem(t: Transaction, item: CartItem, captured: seq<real>) {
    && t.total == 100.0 && t.deliveryFee.None? && t.paymentFee.None?
    && t.history == seq(|captured|, i requires 0 <= i < |captured| =>
                          HistoryEntry(ShippingGoods, Some(captured[i]), None))
    && item.identifier != "" && t.items == [item] && item.quantity == 2
    && t.capturedItems == [] && t.refundedItems == []
  }

  /** A payload that captures one line of that item at the given amount, which is also its price. */
  predicate OneLine(fields: Fields, line: CartItem, item: CartItem, quantity: int, amount: real) {
    && line.identifier == item.identifier && line.price == Some(amount) && line.quantity == quantity
    && fields.amount == Some(amount) && fields.paymentItems == Some([line]) && fields.captureFunds.None?
  }

  lemma OneLineAccepted(t: Transaction, item: CartItem, captured: seq<real>, fields: Fields, line: CartItem,
                        quantity: int, amount: real)
    requires OneItem(t, item, captured) && OneLine(fields, line, item, quantity, amount)
    requires quantity <= 2 && AmountAccepted(t, amount, ShippingGoods)
    ensures BeforeActionPasses(t, Some(fields), ShippingGoods, false)
    ensures ItemsTotal([line]) == amount * quantity as real
  {
    assert [line][..0] == [];
    assert ItemsTotal([]) == 0.0 && PriceTotal([]) == Some(0.0);
    assert PriceTotal([line]) == Some(amount);
    assert FindItem(t.items, item.identifier) == Some(item);
  }

  /** The prices alone are compared with the amount, so two pieces at 60 pass as 60 and record 120 of 100. */
  lemma ItemsCanLeaveTheBounds(t: Transaction, item: CartItem, line: CartItem, fields: Fields)
    requires OneItem(t, item, []) && OneLine(fields, line, item, 2, 60.0)
    ensures InBounds(t) && BeforeActionPasses(t, Some(fields), ShippingGoods, false)
    ensures forall prepared :: RecordedAmount(t, ShippingGoods, RunFields(t, Some(fields), ShippingGoods, prepared)) == 120.0
  {
    NothingCapturedYet(t, 60.0);
    OneLineAccepted(t, item, [], fields, line, 2, 60.0);
  }

  /** A line of minus one piece at 40 passes as 40 and records minus 40. */
  lemma NegativeLineRecordsNegative(t: Transaction, item: CartItem, line: CartItem, fields: Fields)
    requires OneItem(t, item, []) && OneLine(fields, line, item, -1, 40.0)
    ensures InBounds(t) && BeforeActionPasses(t, Some(fields), ShippingGoods, false)
    ensures forall prepared :: RecordedAmount(t, ShippingGoods, RunFields(t, Some(fields), ShippingGoods, prepared)) == -40.0
  {
    NothingCapturedYet(t, 40.0);
    OneLineAccepted(t, item, [], fields, line, -1, 40.0);
  }

  lemma NothingCapturedYet(t: Transaction, amount: real)
    requires t.total == 100.0 && t.history == [] && 0.0 < amount <= 100.0
    ensures InBounds(t) && AmountCaptureRest(t) == 100.0 && AmountAccepted(t, amount, ShippingGoods)
  {
    NewLedgerInBounds(t);
    RoundingWhole(0);
    RoundingWhole(10000);
  }

  /** With 60 of 100 captured, a line of no pieces at 40 passes as 40 and records the total once more. */
  lemma ZeroLineRecordsTotal(t: Transaction, item: CartItem, line: CartItem, fields: Fields)
    requires OneItem(t, item, [60.0]) && OneLine(fields, line, item, 0, 40.0)
    ensures InBounds(t) && BeforeActionPasses(t, Some(fields), ShippingGoods, false)
    ensures AmountCaptureRest(t) == 40.0
    ensures forall prepared :: RecordedAmount(t, ShippingGoods, RunFields(t, Some(fields), ShippingGoods, prepared)) == 100.0
  {
    SixtyCaptured(t);
    FortyLeft(t);
    OneLineAccepted(t, item, [60.0], fields, line, 0, 40.0);
  }

  lemma SixtyCaptured(t: Transaction)
    requires t.history == [HistoryEntry(ShippingGoods, Some(60.0), None)]
    ensures SumOf(Captures, t.history) == 60.0 && SumOf(Refunds, t.history) == 0.0
    ensures AmountCaptured(t) == 60.0 && AmountRefunded(t) == 0.0
  {
    var e := HistoryEntry(ShippingGoods, Some(60.0), None);
    assert t.history == [] + [e];
    SumOfPush(Captures, [], e);
    SumOfPush(Refunds, [], e);
    RoundingWhole(0);
    RoundingWhole(6000);
  }

  lemma FortyLeft(t: Transaction)
    requires t.total == 100.0 && AmountCaptured(t) == 60.0 && AmountRefunded(t) == 0.0
    ensures AmountCaptureRest(t) == 40.0 && AmountAccepted(t, 40.0, ShippingGoods)
  {
    RoundingWhole(4000);
    AdvertisedCaptureInGeneral(t, 40.0);
  }
}
