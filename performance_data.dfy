/** The computed line of a statement: the play's name and type, the
    audience, the amount and the volume credits. Being a datatype, no
    operation changes a record once it is built. */
module PerformanceRecord {
  import opened Theater

  datatype PerformanceData = PerformanceData(name: string, playType: string, audience: Audience,
                                             amount: int, volumeCredits: int)
  {
    function GetName(): string
    {
      name
    }

    function GetType(): string
    {
      playType
    }

    function GetAudience(): Audience
    {
      audience
    }

    function AmountFor(): int
    {
      amount
    }

    function GetAmount(): int
    {
      amount
    }

    function GetVolumeCredits(): int
    {
      volumeCredits
    }
  }

  /** The getters give back the constructor's arguments unchanged. */
  lemma GettersReturnConstructorArguments(name: string, playType: string, audience: Audience,
                                          amount: int, volumeCredits: int)
    ensures var d := PerformanceData(name, playType, audience, amount, volumeCredits);
            d.GetName() == name && d.GetType() == playType && d.GetAudience() == audience &&
            d.GetAmount() == amount && d.GetVolumeCredits() == volumeCredits
  {
  }

  /** The two amount getters are aliases. */
  lemma AmountGettersAgree(d: PerformanceData)
    ensures d.AmountFor() == d.GetAmount() == d.amount
  {
  }

  /** The amounts of a list of records, in order. */
  function Amounts(ds: seq<PerformanceData>): (r: seq<int>)
    ensures |r| == |ds| && forall i :: 0 <= i < |ds| ==> r[i] == ds[i].GetAmount()
  {
    seq(|ds|, i requires 0 <= i < |ds| => ds[i].GetAmount())
  }

  /** The volume credits of a list of records, in order. */
  function Credits(ds: seq<PerformanceData>): (r: seq<int>)
    ensures |r| == |ds| && forall i :: 0 <= i < |ds| ==> r[i] == ds[i].GetVolumeCredits()
  {
    seq(|ds|, i requires 0 <= i < |ds| => ds[i].GetVolumeCredits())
  }
}
