/** The statement data: the customer and one computed record per
    performance of the invoice, built by walking the performances in order,
    and the two totals summed over those records. */
module StatementAggregation {
  import opened Theater
  import opened JavaInt
  import opened Pricing
  import opened Calculators
  import opened PerformanceRecord
  import StatementPrinter

  /** One turn of the constructor's loop: resolve the play, build its
      calculator, price the performance and record the result. A missing
      play fails (the factory dereferences a null play), and so does an
      unknown type (the calculator's amount). */
  function Entry(plays: map<string, Play>, p: Performance): (r: Result<PerformanceData>)
    ensures p.playID !in plays ==> r == Err(UnresolvedPlay(p.playID))
    ensures p.playID in plays ==>
            (r.Ok? <==> GenreOf(plays[p.playID].playType).Some?) &&
            (r.Err? ==> r.error == UnknownType(plays[p.playID].playType))
    ensures r.Ok? ==>
            var play := plays[p.playID];
            var g := GenreOf(play.playType).value;
            r.value == PerformanceData(play.name, play.playType, p.audience,
                                       Amount(g, p.audience), VolumeCredits(g, p.audience))
  {
    if p.playID !in plays then Err(UnresolvedPlay(p.playID))
    else
      var play := plays[p.playID];
      var calculator := CreatePerformanceCalculator(p, play);
      match calculator.AmountFor()
      case Err(e) => Err(e)
      case Ok(amount) =>
        Ok(PerformanceData(play.name, play.playType, p.audience, amount, calculator.VolumeCredits()))
  }

  /** The records of a whole list of performances, or the first error. */
  function Entries(plays: map<string, Play>, ps: seq<Performance>): (r: Result<seq<PerformanceData>>)
    ensures r.Ok? ==> |r.value| == |ps|
    ensures r.Ok? ==> forall i :: 0 <= i < |ps| ==>
              ps[i].playID in plays && r.value[i].audience == ps[i].audience &&
              r.value[i].name == plays[ps[i].playID].name &&
              r.value[i].playType == plays[ps[i].playID].playType
  {
    Traverse(p => Entry(plays, p), ps)
  }

  /** Record `i` describes performance `i`: its play's name and type, its
      audience, and its calculator's amount and credits. */
  lemma EntriesAt(plays: map<string, Play>, ps: seq<Performance>, i: nat)
    requires Entries(plays, ps).Ok? && i < |ps|
    ensures |Entries(plays, ps).value| == |ps|
    ensures ps[i].playID in plays
    ensures var play := plays[ps[i].playID];
            var calculator := CreatePerformanceCalculator(ps[i], play);
            calculator.AmountFor().Ok? &&
            Entries(plays, ps).value[i]
            == PerformanceData(play.name, play.playType, ps[i].audience,
                               calculator.AmountFor().value, calculator.VolumeCredits())
  {
    var f := p => Entry(plays, p);
    assert f(ps[i]) == Ok(Entries(plays, ps).value[i]);
  }

  /** Building succeeds exactly when every play resolves and has one of the
      four known types. */
  lemma EntriesSucceed(plays: map<string, Play>, ps: seq<Performance>)
    ensures Entries(plays, ps).Ok? <==>
            forall i :: 0 <= i < |ps| ==> ps[i].playID in plays && GenreOf(plays[ps[i].playID].playType).Some?
  {
    var f := p => Entry(plays, p);
    forall p: Performance | p.playID in plays
      ensures f(p).Ok? <==> GenreOf(plays[p.playID].playType).Some?
    {
      AmountForAgreesWithPrinter(plays, p);
    }
  }

  /** Building stops at the first performance that fails, with its error. */
  lemma EntriesFirstError(plays: map<string, Play>, ps: seq<Performance>, k: nat)
    requires k < |ps| && Entry(plays, ps[k]).Err?
    requires forall j :: 0 <= j < k ==> Entry(plays, ps[j]).Ok?
    ensures Entries(plays, ps) == Err(Entry(plays, ps[k]).error)
  {
    TraverseStopsAt(p => Entry(plays, p), ps, k);
  }

  /** The statement's amounts are the printer's amounts, and its failures
      the printer's failures with the same error; when the statement is
      built, the printer's credits are the statement's credits. */
  lemma EntriesAgreeWithPrinter(plays: map<string, Play>, ps: seq<Performance>)
    ensures Entries(plays, ps).Ok? ==>
            StatementPrinter.AmountsOf(plays, ps) == Ok(Amounts(Entries(plays, ps).value)) &&
            StatementPrinter.CreditsOf(plays, ps) == Ok(Credits(Entries(plays, ps).value))
    ensures Entries(plays, ps).Err? ==>
            StatementPrinter.AmountsOf(plays, ps) == Err(Entries(plays, ps).error)
  {
    var f := p => Entry(plays, p);
    var g := p => StatementPrinter.GetAmount(plays, p);
    var h := p => StatementPrinter.GetVolumeCredits(plays, p);
    forall p: Performance
      ensures g(p) == match f(p) case Ok(d) => Ok(d.amount) case Err(e) => Err(e)
      ensures f(p).Ok? ==> h(p) == Ok(f(p).value.volumeCredits)
    {
      if p.playID in plays {
        AmountForAgreesWithPrinter(plays, p);
        VolumeCreditsAgreesWithPrinter(plays, p);
      }
    }
    var r := Entries(plays, ps);
    if r.Ok? {
      var amounts := StatementPrinter.AmountsOf(plays, ps);
      var credits := StatementPrinter.CreditsOf(plays, ps);
      assert forall i :: 0 <= i < |ps| ==> f(ps[i]) == Ok(r.value[i]);
      assert amounts.value == Amounts(r.value);
      assert credits.value == Credits(r.value);
    } else {
      var k :| 0 <= k < |ps| && f(ps[k]) == Err(r.error) && forall j :: 0 <= j < k ==> f(ps[j]).Ok?;
      TraverseStopsAt(g, ps, k);
    }
  }

  /** A worked invoice: 55 seats of a tragedy and 35 of a comedy. */
  lemma HamletAndAsYouLikeIt()
    ensures var plays := map["hamlet" := Play("Hamlet", "tragedy"),
                             "as-like" := Play("As You Like It", "comedy")];
            var ps := [Performance("hamlet", 55), Performance("as-like", 35)];
            var ds := [PerformanceData("Hamlet", "tragedy", 55, 65000, 25),
                       PerformanceData("As You Like It", "comedy", 35, 58000, 12)];
            Entries(plays, ps) == Ok(ds) &&
            Wrap32(Sum(Amounts(ds))) == 123000 && Wrap32(Sum(Credits(ds))) == 37
  {
    var plays := map["hamlet" := Play("Hamlet", "tragedy"),
                     "as-like" := Play("As You Like It", "comedy")];
    var ps := [Performance("hamlet", 55), Performance("as-like", 35)];
    var ds := [PerformanceData("Hamlet", "tragedy", 55, 65000, 25),
               PerformanceData("As You Like It", "comedy", 35, 58000, 12)];
    var f := p => Entry(plays, p);
    assert f(ps[0]) == Ok(ds[0]);
    assert f(ps[1]) == Ok(ds[1]);
    assert Entries(plays, ps).value == ds;
    assert Amounts(ds) == [65000, 58000];
    assert Credits(ds) == [25, 12];
    assert Sum([65000, 58000]) == 123000 by {
      assert [65000, 58000][..1] == [65000];
      assert [65000][..0] == [];
    }
    assert Sum([25, 12]) == 37 by {
      assert [25, 12][..1] == [25];
      assert [25][..0] == [];
    }
  }

  class StatementData {
    const customer: string
    var performances: seq<PerformanceData>

    /** A statement for `customer` with no records yet. */
    constructor (customer: string)
      ensures this.customer == customer && performances == []
    {
      this.customer := customer;
      performances := [];
    }

    /** The constructor proper: walk the invoice's performances in order and
        append one record per performance. Any failure aborts the whole
        construction, so no partially built statement is returned. */
    static method Create(invoice: Invoice, plays: map<string, Play>) returns (r: Result<StatementData>)
      ensures r.Ok? <==> Entries(plays, invoice.performances).Ok?
      ensures r.Err? ==> r.error == Entries(plays, invoice.performances).error
      ensures r.Ok? ==> fresh(r.value) && r.value.customer == invoice.customer &&
                        r.value.performances == Entries(plays, invoice.performances).value
      ensures r.Ok? ==> r.value.GetCustomer() == invoice.customer &&
                        r.value.GetPerformances() == Entries(plays, invoice.performances).value
    {
      var data := new StatementData(invoice.customer);
      var ps := invoice.performances;
      for i := 0 to |ps|
        invariant Entries(plays, ps[..i]) == Ok(data.performances)
      {
        var p := ps[i];
        if p.playID !in plays {
          EntriesFirstError(plays, ps, i);
          return Err(UnresolvedPlay(p.playID));
        }
        var play := plays[p.playID];
        var calculator := CreatePerformanceCalculator(p, play);
        var amount := calculator.AmountFor();
        if amount.Err? {
          EntriesFirstError(plays, ps, i);
          return Err(amount.error);
        }
        var volumeCredits := calculator.VolumeCredits();
        EntriesStep(plays, ps, i);
        data.performances := data.performances
          + [PerformanceData(play.name, play.playType, p.audience, amount.value, volumeCredits)];
      }
      assert ps[..|ps|] == ps;
      return Ok(data);
    }

    /** The customer the statement was built for. */
    function GetCustomer(): (c: string)
      ensures c == customer
    {
      customer
    }

    /** The computed records, in invoice order. */
    function GetPerformances(): (ds: seq<PerformanceData>)
      reads this
      ensures ds == performances
    {
      performances
    }

    /** The loop `result += pd.getAmount()`, wrapped to 32 bits. */
    method TotalAmount() returns (total: int)
      ensures total == Wrap32(Sum(Amounts(performances)))
    {
      var result := 0;
      for i := 0 to |performances|
        invariant result == Wrap32(Sum(Amounts(performances[..i])))
      {
        assert performances[..i + 1] == performances[..i] + [performances[i]];
        assert Amounts(performances[..i + 1]) == Amounts(performances[..i]) + [performances[i].GetAmount()];
        SumSnoc(Amounts(performances[..i]), performances[i].GetAmount());
        WrapAdd(Sum(Amounts(performances[..i])), performances[i].GetAmount());
        result := Wrap32(result + performances[i].GetAmount());
      }
      assert performances[..|performances|] == performances;
      return result;
    }

    /** The loop `result += pd.getVolumeCredits()`, wrapped to 32 bits. */
    method VolumeCredits() returns (total: int)
      ensures total == Wrap32(Sum(Credits(performances)))
    {
      var result := 0;
      for i := 0 to |performances|
        invariant result == Wrap32(Sum(Credits(performances[..i])))
      {
        assert performances[..i + 1] == performances[..i] + [performances[i]];
        assert Credits(performances[..i + 1]) == Credits(performances[..i]) + [performances[i].GetVolumeCredits()];
        SumSnoc(Credits(performances[..i]), performances[i].GetVolumeCredits());
        WrapAdd(Sum(Credits(performances[..i])), performances[i].GetVolumeCredits());
        result := Wrap32(result + performances[i].GetVolumeCredits());
      }
      assert performances[..|performances|] == performances;
      return result;
    }
  }

  lemma EntriesStep(plays: map<string, Play>, ps: seq<Performance>, i: nat)
    requires i < |ps| && Entries(plays, ps[..i]).Ok? && Entry(plays, ps[i]).Ok?
    ensures Entries(plays, ps[..i + 1]) == Ok(Entries(plays, ps[..i]).value + [Entry(plays, ps[i]).value])
  {
    assert ps[..i + 1] == ps[..i] + [ps[i]];
    TraverseSnoc(p => Entry(plays, p), ps[..i], ps[i]);
  }
}
