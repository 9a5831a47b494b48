/** The performance calculator: a performance bound to its play, with the
    calculator's own copy of the amount and credit rules, and the factory
    that picks a calculator variant from the play's type. The variants add
    no behaviour of their own here: the model takes the base-class rules
    for all of them. */
module Calculators {
  import opened Theater
  import opened Pricing
  import StatementPrinter

  /** The calculator subclass the factory instantiates. */
  datatype CalculatorKind = TragedyCalculator | ComedyCalculator | HistoryCalculator | PastoralCalculator

  function KindFor(g: Genre): CalculatorKind
  {
    match g
    case Tragedy => TragedyCalculator
    case Comedy => ComedyCalculator
    case History => HistoryCalculator
    case Pastoral => PastoralCalculator
  }

  /** A calculator holds the performance and the play it was built with. */
  datatype PerformanceCalculator = PerformanceCalculator(kind: CalculatorKind, performance: Performance, play: Play)
  {
    function GetPerformance(): Performance
    {
      performance
    }

    function GetPlay(): Play
    {
      play
    }

    /** The if-chain over the play's type: each known tag prices by its
        genre's formula; any other type is an "unknown type" error,
        whichever variant the calculator is. */
    function AmountFor(): (r: Result<int>)
      ensures r.Ok? ==> r.value >= 0
    {
      var t := play.playType;
      if t == TRAGEDY_TAG then Ok(Amount(Tragedy, performance.audience))
      else if t == COMEDY_TAG then Ok(Amount(Comedy, performance.audience))
      else if t == HISTORY_TAG then Ok(Amount(History, performance.audience))
      else if t == PASTORAL_TAG then Ok(Amount(Pastoral, performance.audience))
      else Err(UnknownType(play.playType))
    }

    /** The baseline credits, plus the comedy bonus for the comedy tag. */
    function VolumeCredits(): (r: int)
      ensures r >= 0
    {
      var result := BaseCredits(performance.audience);
      if play.playType == COMEDY_TAG then result + ComedyBonus(performance.audience) else result
    }
  }

  /** The factory: the calculator variant named by the play's type, and the
      tragedy variant for every other type. */
  function CreatePerformanceCalculator(performance: Performance, play: Play): (c: PerformanceCalculator)
    ensures c.GetPerformance() == performance && c.GetPlay() == play
  {
    var t := play.playType;
    if t == TRAGEDY_TAG then PerformanceCalculator(TragedyCalculator, performance, play)
    else if t == COMEDY_TAG then PerformanceCalculator(ComedyCalculator, performance, play)
    else if t == HISTORY_TAG then PerformanceCalculator(HistoryCalculator, performance, play)
    else if t == PASTORAL_TAG then PerformanceCalculator(PastoralCalculator, performance, play)
    else PerformanceCalculator(TragedyCalculator, performance, play)
  }

  /** The getters give back exactly what the calculator was built with. */
  lemma GettersReturnConstructorArguments(k: CalculatorKind, p: Performance, play: Play)
    ensures PerformanceCalculator(k, p, play).GetPerformance() == p
    ensures PerformanceCalculator(k, p, play).GetPlay() == play
  {
  }

  /** A known type gets the variant of its own genre. */
  lemma FactoryKnownType(p: Performance, play: Play, g: Genre)
    requires play.playType == Tag(g)
    ensures CreatePerformanceCalculator(p, play).kind == KindFor(g)
    ensures CreatePerformanceCalculator(p, play).AmountFor() == Ok(Amount(g, p.audience))
    ensures CreatePerformanceCalculator(p, play).VolumeCredits() == VolumeCredits(g, p.audience)
  {
  }

  /** An unknown type does not make the factory fail: it falls back to the
      tragedy variant. That variant's amount still fails, because the
      rules test the play's type and not the variant. */
  lemma FactoryUnknownTypeFallsBack(p: Performance, play: Play)
    requires forall g: Genre :: Tag(g) != play.playType
    ensures CreatePerformanceCalculator(p, play).kind == TragedyCalculator
    ensures CreatePerformanceCalculator(p, play).AmountFor() == Err(UnknownType(play.playType))
    ensures CreatePerformanceCalculator(p, play).VolumeCredits() == BaseCredits(p.audience)
  {
    assert GenreOf(play.playType).None?;
  }

  /** The calculator and the printer compute the same amount: the same
      value for a known type and the same error for an unknown one. */
  lemma AmountForAgreesWithPrinter(plays: map<string, Play>, p: Performance)
    requires p.playID in plays
    ensures CreatePerformanceCalculator(p, plays[p.playID]).AmountFor()
            == StatementPrinter.GetAmount(plays, p)
  {
  }

  /** The calculator and the printer compute the same credits. */
  lemma VolumeCreditsAgreesWithPrinter(plays: map<string, Play>, p: Performance)
    requires p.playID in plays
    ensures StatementPrinter.GetVolumeCredits(plays, p)
            == Ok(CreatePerformanceCalculator(p, plays[p.playID]).VolumeCredits())
  {
  }
}
