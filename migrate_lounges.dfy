/** The one-off script that gives every paid lounge without Stripe ids a
    Stripe product and two prices (scripts/migrate_existing_lounges_to_stripe.py).
    The lounges table is a sequence of rows; Stripe is the function that
    answers each product request, as in the billing service. */
module MigrateLounges {
  import opened Common
  import opened LoungeModel
  import BillingService

  /** One entry of `results["errors"]`. */
  datatype MigrationError = MigrationError(loungeId: int, title: String, error: String)

  /** The dictionary `migrate_existing_paid_lounges` returns. */
  datatype Results = Results(
    totalPaidLounges: nat,
    alreadyMigrated: nat,
    successfullyMigrated: nat,
    failed: nat,
    errors: seq<MigrationError>)

  type Stripe = BillingService.ProductRequest -> Result<BillingService.LoungeStripeIds>

  /** The query's condition: `access_type == PAID`. */
  predicate IsPaid(l: Lounge) { l.accessType == Paid }

  /** A paid lounge the script still has to set up: no (or an empty) product id. */
  predicate Pending(l: Lounge) { IsPaid(l) && !TruthyStr(l.stripeProductId) }

  /** What the loop body does with one paid lounge. */
  datatype Step = AlreadyThere | WouldCreate | Created(ids: BillingService.LoungeStripeIds) | Failed(message: String)

  function StepOf(l: Lounge, dryRun: bool, stripe: Stripe): Step {
    if TruthyStr(l.stripeProductId) then AlreadyThere
    else if dryRun then WouldCreate
    else LiveStep(BillingService.CreateLoungeStripeProduct(l.id, l.title, l.slug, stripe))
  }

  /** The `try` block: the ids on success, the exception's text otherwise. */
  function LiveStep(attempt: BillingService.Attempt<BillingService.LoungeStripeIds>): Step {
    match attempt
    case Done(ids) => Created(ids)
    case Rejected(m) => Failed(m)
    case Raised(m) => Failed(m)
  }

  /** Which step a lounge takes: an existing product id skips it, a dry run
      only counts it, and a live run asks Stripe for the lounge's product and
      prices, failing with the billing service's message. */
  lemma StepOfCases(l: Lounge, dryRun: bool, stripe: Stripe)
    ensures var s := StepOf(l, dryRun, stripe);
      var answer := stripe(BillingService.LoungeProductRequest(l.id, l.title, l.slug));
      (s.AlreadyThere? <==> TruthyStr(l.stripeProductId)) &&
      (s.WouldCreate? <==> !TruthyStr(l.stripeProductId) && dryRun) &&
      (s.Created? <==> !TruthyStr(l.stripeProductId) && !dryRun && answer.Success?) &&
      (s.Created? ==> s.ids == answer.value) &&
      (s.Failed? <==> !TruthyStr(l.stripeProductId) && !dryRun && answer.Failure?) &&
      (s.Failed? ==> s.message == BillingService.ProductFailed + answer.error)
  {
  }

  /** The row as the script leaves it: only a created product writes the
      three Stripe ids, and rows of free or invite-only lounges are not read. */
  function MigratedRow(l: Lounge, dryRun: bool, stripe: Stripe): Lounge {
    if !IsPaid(l) then l
    else
      match StepOf(l, dryRun, stripe)
      case Created(ids) =>
        l.(stripeProductId := Some(ids.productId),
           stripeMonthlyPriceId := Some(ids.monthlyPriceId),
           stripeYearlyPriceId := Some(ids.yearlyPriceId))
      case _ => l
  }

  /** The counters after one more lounge of the table. */
  function Record(r: Results, l: Lounge, dryRun: bool, stripe: Stripe): Results {
    if !IsPaid(l) then r
    else
      match StepOf(l, dryRun, stripe)
      case AlreadyThere => r.(alreadyMigrated := r.alreadyMigrated + 1)
      case WouldCreate => r.(successfullyMigrated := r.successfullyMigrated + 1)
      case Created(_) => r.(successfullyMigrated := r.successfullyMigrated + 1)
      case Failed(m) => r.(failed := r.failed + 1, errors := r.errors + [MigrationError(l.id, l.title, m)])
  }

  /** The results after the loop has seen the rows `ls`, starting from the
      paid-lounge total and zero counters. */
  function Tally(total: nat, ls: seq<Lounge>, dryRun: bool, stripe: Stripe): Results
    decreases |ls|
  {
    if ls == [] then Results(total, 0, 0, 0, [])
    else Record(Tally(total, ls[..|ls| - 1], dryRun, stripe), ls[|ls| - 1], dryRun, stripe)
  }

  /** The loop as it runs when the `Lounge` class maps the columns
      `mapped`. Its first statement reads `lounge.stripe_product_id` outside
      the `try`, so when that column is not mapped the first paid lounge
      raises AttributeError out of the function, before any commit, and no
      results are returned. */
  function TallyMapped(mapped: seq<String>, total: nat, ls: seq<Lounge>, dryRun: bool, stripe: Stripe)
    : (r: Result<Results>)
    ensures StripeProductColumn in mapped ==> r == Success(Tally(total, ls, dryRun, stripe))
    ensures StripeProductColumn !in mapped ==> (r.Failure? <==> exists l :: l in ls && IsPaid(l))
    ensures r.Failure? ==> r.error == NoLoungeAttribute(StripeProductColumn)
    decreases |ls|
  {
    if ls == [] then Success(Results(total, 0, 0, 0, []))
    else
      var init := ls[..|ls| - 1];
      var l := ls[|ls| - 1];
      assert ls == init + [l];
      match TallyMapped(mapped, total, init, dryRun, stripe)
      case Failure(e) => Failure(e)
      case Success(r) =>
        if IsPaid(l) && StripeProductColumn !in mapped then Failure(NoLoungeAttribute(StripeProductColumn))
        else Success(Record(r, l, dryRun, stripe))
  }

  /** As written the script returns no results whenever the table holds a
      paid lounge; with the added columns mapped it returns the tally that
      `MigrateExistingPaidLounges` computes. */
  lemma MigrationAbortsAsWritten(lounges: seq<Lounge>, dryRun: bool, stripe: Stripe)
    ensures TallyMapped(LoungeOrmColumns, Count(lounges, IsPaid), lounges, dryRun, stripe).Failure?
            <==> exists l :: l in lounges && IsPaid(l)
    ensures TallyMapped(LoungeOrmColumns + AddedLoungeColumns, Count(lounges, IsPaid), lounges, dryRun, stripe)
            == Success(Tally(Count(lounges, IsPaid), lounges, dryRun, stripe))
  {
    StripeColumnsUnmapped();
  }

  /** `migrate_existing_paid_lounges`: walks the lounges table in order,
      treating the paid rows as the query's result list, and gives the
      results and the table after the commits. */
  method MigrateExistingPaidLounges(lounges: seq<Lounge>, dryRun: bool, stripe: Stripe)
    returns (results: Results, after: seq<Lounge>)
    ensures results == Tally(Count(lounges, IsPaid), lounges, dryRun, stripe)
    ensures |after| == |lounges|
    ensures forall i :: 0 <= i < |lounges| ==> after[i] == MigratedRow(lounges[i], dryRun, stripe)
  {
    var total := Count(lounges, IsPaid);
    results := Results(total, 0, 0, 0, []);
    after := lounges;
    var i := 0;
    while i < |lounges|
      invariant 0 <= i <= |lounges|
      invariant results == Tally(total, lounges[..i], dryRun, stripe)
      invariant |after| == |lounges|
      invariant forall k :: 0 <= k < i ==> after[k] == MigratedRow(lounges[k], dryRun, stripe)
      invariant forall k :: i <= k < |lounges| ==> after[k] == lounges[k]
    {
      TallyNext(total, lounges, i, dryRun, stripe);
      var row;
      results, row := MigrateLounge(results, lounges[i], dryRun, stripe);
      after := after[i := row];
      i := i + 1;
    }
    assert lounges[..i] == lounges;
  }

  /** One turn of the loop: skip a lounge that has a product id, count it
      on a dry run, otherwise ask Stripe and copy the ids or log the error. */
  method MigrateLounge(prev: Results, l: Lounge, dryRun: bool, stripe: Stripe)
    returns (results: Results, row: Lounge)
    ensures results == Record(prev, l, dryRun, stripe)
    ensures row == MigratedRow(l, dryRun, stripe)
  {
    results, row := prev, l;
    if IsPaid(l) {
      if TruthyStr(l.stripeProductId) {
        RecordSkip(prev, l, dryRun, stripe);
        results := results.(alreadyMigrated := results.alreadyMigrated + 1);
      } else if dryRun {
        RecordDryRun(prev, l, stripe);
        results := results.(successfullyMigrated := results.successfullyMigrated + 1);
      } else {
        var attempt := BillingService.CreateLoungeStripeProduct(l.id, l.title, l.slug, stripe);
        match attempt
        case Done(ids) =>
          RecordCreated(prev, l, stripe, ids);
          row := l.(stripeProductId := Some(ids.productId),
                    stripeMonthlyPriceId := Some(ids.monthlyPriceId),
                    stripeYearlyPriceId := Some(ids.yearlyPriceId));
          results := results.(successfullyMigrated := results.successfullyMigrated + 1);
        case Raised(m) =>
          RecordFailed(prev, l, stripe, m);
          results := results.(failed := results.failed + 1,
                              errors := results.errors + [MigrationError(l.id, l.title, m)]);
      }
    }
  }

  lemma TallyNext(total: nat, ls: seq<Lounge>, i: nat, dryRun: bool, stripe: Stripe)
    requires i < |ls|
    ensures Tally(total, ls[..i + 1], dryRun, stripe) == Record(Tally(total, ls[..i], dryRun, stripe), ls[i], dryRun, stripe)
  {
    assert ls[..i + 1][..i] == ls[..i];
  }

  lemma RecordSkip(r: Results, l: Lounge, dryRun: bool, stripe: Stripe)
    requires IsPaid(l) && TruthyStr(l.stripeProductId)
    ensures Record(r, l, dryRun, stripe) == r.(alreadyMigrated := r.alreadyMigrated + 1)
    ensures MigratedRow(l, dryRun, stripe) == l
  {
  }

  lemma RecordDryRun(r: Results, l: Lounge, stripe: Stripe)
    requires Pending(l)
    ensures Record(r, l, true, stripe) == r.(successfullyMigrated := r.successfullyMigrated + 1)
    ensures MigratedRow(l, true, stripe) == l
  {
  }

  lemma RecordCreated(r: Results, l: Lounge, stripe: Stripe, ids: BillingService.LoungeStripeIds)
    requires Pending(l)
    requires BillingService.CreateLoungeStripeProduct(l.id, l.title, l.slug, stripe) == BillingService.Done(ids)
    ensures Record(r, l, false, stripe) == r.(successfullyMigrated := r.successfullyMigrated + 1)
    ensures MigratedRow(l, false, stripe) ==
      l.(stripeProductId := Some(ids.productId),
         stripeMonthlyPriceId := Some(ids.monthlyPriceId),
         stripeYearlyPriceId := Some(ids.yearlyPriceId))
  {
  }

  lemma RecordFailed(r: Results, l: Lounge, stripe: Stripe, m: String)
    requires Pending(l)
    requires BillingService.CreateLoungeStripeProduct(l.id, l.title, l.slug, stripe) == BillingService.Raised(m)
    ensures Record(r, l, false, stripe) ==
      r.(failed := r.failed + 1, errors := r.errors + [MigrationError(l.id, l.title, m)])
    ensures MigratedRow(l, false, stripe) == l
  {
  }

  // ---------------------------------------------------------------------
  // What the results promise
  // ---------------------------------------------------------------------

  /** One more lounge adds one to exactly one counter when it is paid, and
      an error entry exactly when the failure counter grows. */
  lemma RecordCounts(r: Results, l: Lounge, dryRun: bool, stripe: Stripe)
    ensures var q := Record(r, l, dryRun, stripe);
      q.totalPaidLounges == r.totalPaidLounges &&
      q.alreadyMigrated + q.successfullyMigrated + q.failed ==
        r.alreadyMigrated + r.successfullyMigrated + r.failed + (if IsPaid(l) then 1 else 0) &&
      |q.errors| - q.failed == |r.errors| - r.failed
  {
  }

  /** Every paid lounge is counted exactly once, and each failure leaves one
      error entry. */
  lemma {:induction false} TallyBalanced(total: nat, ls: seq<Lounge>, dryRun: bool, stripe: Stripe)
    ensures var r := Tally(total, ls, dryRun, stripe);
      r.totalPaidLounges == total &&
      r.alreadyMigrated + r.successfullyMigrated + r.failed == Count(ls, IsPaid) &&
      |r.errors| == r.failed
    decreases |ls|
  {
    if ls != [] {
      var init := ls[..|ls| - 1];
      TallyBalanced(total, init, dryRun, stripe);
      assert init + [ls[|ls| - 1]] == ls;
      CountSnoc(init, ls[|ls| - 1], IsPaid);
      RecordCounts(Tally(total, init, dryRun, stripe), ls[|ls| - 1], dryRun, stripe);
    }
  }

  /** The script's results add up: already + migrated + failed = total paid,
      and there are as many error entries as failures. */
  lemma ResultsAddUp(lounges: seq<Lounge>, dryRun: bool, stripe: Stripe)
    ensures var r := Tally(Count(lounges, IsPaid), lounges, dryRun, stripe);
      r.alreadyMigrated + r.successfullyMigrated + r.failed == r.totalPaidLounges &&
      |r.errors| == r.failed
  {
    TallyBalanced(Count(lounges, IsPaid), lounges, dryRun, stripe);
  }

  /** Each error entry names a pending paid lounge of the table whose Stripe
      request failed, with the message the billing service raised. */
  lemma {:induction false} ErrorsAreFailures(total: nat, ls: seq<Lounge>, dryRun: bool, stripe: Stripe, j: nat)
    requires j < |Tally(total, ls, dryRun, stripe).errors|
    ensures exists k :: (0 <= k < |ls| && Pending(ls[k]) && StepOf(ls[k], dryRun, stripe).Failed? &&
                         Tally(total, ls, dryRun, stripe).errors[j] ==
                           MigrationError(ls[k].id, ls[k].title, StepOf(ls[k], dryRun, stripe).message))
    decreases |ls|
  {
    var init := ls[..|ls| - 1];
    var l := ls[|ls| - 1];
    var prev := Tally(total, init, dryRun, stripe);
    if j < |prev.errors| {
      ErrorsAreFailures(total, init, dryRun, stripe, j);
      var k :| 0 <= k < |init| && Pending(init[k]) && StepOf(init[k], dryRun, stripe).Failed? &&
        prev.errors[j] == MigrationError(init[k].id, init[k].title, StepOf(init[k], dryRun, stripe).message);
      assert ls[k] == init[k];
    } else {
      assert ls[|ls| - 1] == l;
    }
  }

  /** A dry run changes no row, raises nothing, and reports every pending
      paid lounge as migrated. */
  lemma {:induction false} DryRunReportsPending(total: nat, ls: seq<Lounge>, stripe: Stripe)
    ensures var r := Tally(total, ls, true, stripe);
      r.failed == 0 && r.errors == [] && r.successfullyMigrated == Count(ls, Pending)
    ensures forall k :: 0 <= k < |ls| ==> MigratedRow(ls[k], true, stripe) == ls[k]
    decreases |ls|
  {
    if ls != [] {
      var init := ls[..|ls| - 1];
      DryRunReportsPending(total, init, stripe);
      assert init + [ls[|ls| - 1]] == ls;
      CountSnoc(init, ls[|ls| - 1], Pending);
    }
  }

  /** A lounge that already has a product id comes out unchanged. */
  lemma MigratedLoungesUntouched(l: Lounge, dryRun: bool, stripe: Stripe)
    requires TruthyStr(l.stripeProductId)
    ensures MigratedRow(l, dryRun, stripe) == l
  {
    assert !StepOf(l, dryRun, stripe).Created?;
  }

  /** A live run that Stripe answers writes exactly the three ids Stripe
      returned, and nothing else of the row. */
  lemma CreatedIdsCopied(l: Lounge, stripe: Stripe, ids: BillingService.LoungeStripeIds)
    requires Pending(l)
    requires stripe(BillingService.LoungeProductRequest(l.id, l.title, l.slug)) == Success(ids)
    ensures MigratedRow(l, false, stripe) ==
      l.(stripeProductId := Some(ids.productId),
         stripeMonthlyPriceId := Some(ids.monthlyPriceId),
         stripeYearlyPriceId := Some(ids.yearlyPriceId))
  {
    assert StepOf(l, false, stripe) == Created(ids);
  }

  /** Where every paid row already has a product id, the run changes nothing
      and counts them all as already migrated. */
  lemma {:induction false} NothingPendingTally(total: nat, ls: seq<Lounge>, dryRun: bool, stripe: Stripe)
    requires forall k :: 0 <= k < |ls| ==> !Pending(ls[k])
    ensures var r := Tally(total, ls, dryRun, stripe);
      r.alreadyMigrated == Count(ls, IsPaid) && r.successfullyMigrated == 0 && r.failed == 0
    decreases |ls|
  {
    if ls != [] {
      var init := ls[..|ls| - 1];
      NothingPendingTally(total, init, dryRun, stripe);
      assert init + [ls[|ls| - 1]] == ls;
      CountSnoc(init, ls[|ls| - 1], IsPaid);
    }
  }

  /** Running the script again after a live run in which Stripe answered
      every request with a non-empty product id finds nothing left to do. */
  lemma RerunFindsNothing(lounges: seq<Lounge>, after: seq<Lounge>, stripe: Stripe, dryRun2: bool, stripe2: Stripe)
    requires |after| == |lounges|
    requires forall i :: 0 <= i < |lounges| ==> after[i] == MigratedRow(lounges[i], false, stripe)
    requires forall i :: 0 <= i < |lounges| && Pending(lounges[i]) ==>
      var answer := stripe(BillingService.LoungeProductRequest(lounges[i].id, lounges[i].title, lounges[i].slug));
      answer.Success? && answer.value.productId != []
    ensures var r := Tally(Count(after, IsPaid), after, dryRun2, stripe2);
      r.alreadyMigrated == r.totalPaidLounges && r.successfullyMigrated == 0 && r.failed == 0
  {
    forall k | 0 <= k < |after|
      ensures !Pending(after[k]) && IsPaid(after[k]) == IsPaid(lounges[k])
    {
      if Pending(lounges[k]) {
        var answer := stripe(BillingService.LoungeProductRequest(lounges[k].id, lounges[k].title, lounges[k].slug));
        CreatedIdsCopied(lounges[k], stripe, answer.value);
      }
    }
    NothingPendingTally(Count(after, IsPaid), after, dryRun2, stripe2);
    TallyBalanced(Count(after, IsPaid), after, dryRun2, stripe2);
  }
}
