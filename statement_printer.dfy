/** The statement printer's own copy of the pricing: per-performance amount
    and credits looked up through the play catalogue, and the two totals
    accumulated over an invoice in 32-bit Java arithmetic. The printer's
    fields are never reassigned, so its operations take the invoice and the
    catalogue as parameters. */
module StatementPrinter {
  import opened Theater
  import opened JavaInt
  import opened Pricing

  /** The catalogue entry of the performance's play; None stands for the
      `null` a Java map returns for a missing key. */
  function GetPlay(plays: map<string, Play>, p: Performance): (r: Option<Play>)
    ensures r.Some? <==> p.playID in plays
    ensures r.Some? ==> r.value == plays[p.playID]
  {
    if p.playID in plays then Some(plays[p.playID]) else None
  }

  /** The switch over the play's type: a known tag prices by its genre's
      formula, any other tag is an "unknown type" error, and a missing play
      fails on the dereference before the switch. */
  function GetAmount(plays: map<string, Play>, p: Performance): (r: Result<int>)
    ensures r.Ok? ==> IsInt32(r.value) && 0 <= r.value <= MAX_AMOUNT
  {
    match GetPlay(plays, p)
    case None => Err(UnresolvedPlay(p.playID))
    case Some(play) =>
      match GenreOf(play.playType)
      case Some(g) => Ok(Amount(g, p.audience))
      case None => Err(UnknownType(play.playType))
  }

  /** The baseline credits, plus the comedy bonus when the type is exactly
      the comedy tag. An unknown type is not an error here; only a missing
      play fails, when its type is read for the comedy test. */
  function GetVolumeCredits(plays: map<string, Play>, p: Performance): (r: Result<int>)
    ensures r.Ok? ==> IsInt32(r.value) && r.value >= 0
  {
    var result := BaseCredits(p.audience);
    match GetPlay(plays, p)
    case None => Err(UnresolvedPlay(p.playID))
    case Some(play) =>
      Ok(result + (if play.playType == COMEDY_TAG then ComedyBonus(p.audience) else 0))
  }

  lemma GetAmountKnownType(plays: map<string, Play>, p: Performance, g: Genre)
    requires p.playID in plays && plays[p.playID].playType == Tag(g)
    ensures GetAmount(plays, p) == Ok(Amount(g, p.audience))
  {
    GenreOfTag(g);
  }

  lemma GetAmountUnknownType(plays: map<string, Play>, p: Performance)
    requires p.playID in plays
    requires forall g: Genre :: Tag(g) != plays[p.playID].playType
    ensures GetAmount(plays, p) == Err(UnknownType(plays[p.playID].playType))
  {
  }

  lemma GetAmountMissingPlay(plays: map<string, Play>, p: Performance)
    requires p.playID !in plays
    ensures GetAmount(plays, p) == Err(UnresolvedPlay(p.playID))
    ensures GetVolumeCredits(plays, p) == Err(UnresolvedPlay(p.playID))
  {
  }

  lemma GetVolumeCreditsResolved(plays: map<string, Play>, p: Performance)
    requires p.playID in plays
    ensures GetVolumeCredits(plays, p)
            == Ok(match GenreOf(plays[p.playID].playType)
                  case Some(g) => VolumeCredits(g, p.audience)
                  case None => BaseCredits(p.audience))
  {
  }

  /** The per-performance amounts of a list of performances, in order,
      or the first performance's error. */
  function AmountsOf(plays: map<string, Play>, ps: seq<Performance>): Result<seq<int>>
  {
    Traverse(p => GetAmount(plays, p), ps)
  }

  /** The per-performance credits, in order, or the first error. */
  function CreditsOf(plays: map<string, Play>, ps: seq<Performance>): Result<seq<int>>
  {
    Traverse(p => GetVolumeCredits(plays, p), ps)
  }

  /** The loop `result += getAmount(p)` over the invoice: the sum of the
      amounts, wrapped to 32 bits as Java's `+=` does, or the first
      performance's error. */
  method GetTotalAmount(invoice: Invoice, plays: map<string, Play>) returns (r: Result<int>)
    ensures r.Ok? <==> AmountsOf(plays, invoice.performances).Ok?
    ensures r.Ok? ==> r.value == Wrap32(Sum(AmountsOf(plays, invoice.performances).value))
    ensures r.Err? ==> r.error == AmountsOf(plays, invoice.performances).error
  {
    r := SumEach(p => GetAmount(plays, p), invoice.performances);
  }

  /** The loop `result += getVolumeCredits(p)`, wrapped to 32 bits. */
  method GetTotalVolumeCredits(invoice: Invoice, plays: map<string, Play>) returns (r: Result<int>)
    ensures r.Ok? <==> CreditsOf(plays, invoice.performances).Ok?
    ensures r.Ok? ==> r.value == Wrap32(Sum(CreditsOf(plays, invoice.performances).value))
    ensures r.Err? ==> r.error == CreditsOf(plays, invoice.performances).error
  {
    r := SumEach(p => GetVolumeCredits(plays, p), invoice.performances);
  }

  /** The amount total fails with the error of the first failing
      performance. */
  lemma TotalAmountFirstError(plays: map<string, Play>, ps: seq<Performance>, k: nat)
    requires k < |ps| && GetAmount(plays, ps[k]).Err?
    requires forall j :: 0 <= j < k ==> GetAmount(plays, ps[j]).Ok?
    ensures AmountsOf(plays, ps) == Err(GetAmount(plays, ps[k]).error)
  {
    TraverseStopsAt(p => GetAmount(plays, p), ps, k);
  }

  /** One unknown type anywhere on the invoice fails the amount total, for
      any audience. */
  lemma TotalAmountFailsOnUnknownType(plays: map<string, Play>, ps: seq<Performance>, i: nat)
    requires i < |ps| && ps[i].playID in plays
    requires forall g: Genre :: Tag(g) != plays[ps[i].playID].playType
    ensures AmountsOf(plays, ps).Err?
  {
    GetAmountUnknownType(plays, ps[i]);
    assert (p => GetAmount(plays, p))(ps[i]).Err?;
  }

  /** The credit total never fails on an unknown type: with every play
      resolved it always succeeds. */
  lemma TotalCreditsIgnoreUnknownTypes(plays: map<string, Play>, ps: seq<Performance>)
    requires forall i :: 0 <= i < |ps| ==> ps[i].playID in plays
    ensures CreditsOf(plays, ps).Ok?
  {
    var f := p => GetVolumeCredits(plays, p);
    forall i | 0 <= i < |ps| ensures f(ps[i]).Ok? {
      GetVolumeCreditsResolved(plays, ps[i]);
    }
  }

  /** A sum of values each at most MAX_AMOUNT is at most |xs| times it. */
  lemma {:induction false} SumAtMost(xs: seq<int>)
    requires forall i :: 0 <= i < |xs| ==> 0 <= xs[i] <= MAX_AMOUNT
    ensures 0 <= Sum(xs) <= |xs| * MAX_AMOUNT
  {
    if xs != [] {
      var init := xs[..|xs| - 1];
      assert forall i :: 0 <= i < |init| ==> init[i] == xs[i];
      SumAtMost(init);
    }
  }

  /** An invoice short enough that even the dearest performances cannot
      overflow an int is totalled exactly, with no wrap-around. */
  lemma TotalAmountExact(plays: map<string, Play>, ps: seq<Performance>)
    requires AmountsOf(plays, ps).Ok? && |ps| * MAX_AMOUNT <= INT32_MAX
    ensures Wrap32(Sum(AmountsOf(plays, ps).value)) == Sum(AmountsOf(plays, ps).value)
  {
    var f := p => GetAmount(plays, p);
    var xs := AmountsOf(plays, ps).value;
    forall i | 0 <= i < |xs| ensures 0 <= xs[i] <= MAX_AMOUNT {
      assert f(ps[i]) == Ok(xs[i]);
    }
    SumAtMost(xs);
  }
}
