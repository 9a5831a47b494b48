/** The per-genre pricing rules: the amount (in cents) and the volume credits
    a performance of a play of a given genre earns for a given audience. */
module Pricing {
  import opened Theater
  import opened JavaInt
  import opened Constants

  /** The four genres the engine prices. */
  datatype Genre = Tragedy | Comedy | History | Pastoral

  const TRAGEDY_TAG: string := "tragedy"
  const COMEDY_TAG: string := "comedy"
  const HISTORY_TAG: string := "history"
  const PASTORAL_TAG: string := "pastoral"

  /** The type string a play of genre `g` carries. */
  function Tag(g: Genre): string
  {
    match g
    case Tragedy => TRAGEDY_TAG
    case Comedy => COMEDY_TAG
    case History => HISTORY_TAG
    case Pastoral => PASTORAL_TAG
  }

  /** The genre a type string names, if any: exactly the four tags do. */
  function GenreOf(t: string): (r: Option<Genre>)
    ensures r.Some? ==> Tag(r.value) == t
    ensures r.None? ==> forall g: Genre :: Tag(g) != t
  {
    if t == TRAGEDY_TAG then Some(Tragedy)
    else if t == COMEDY_TAG then Some(Comedy)
    else if t == HISTORY_TAG then Some(History)
    else if t == PASTORAL_TAG then Some(Pastoral)
    else None
  }

  lemma GenreOfTag(g: Genre)
    ensures GenreOf(Tag(g)) == Some(g)
  {
  }

  /** An upper bound on any single performance's amount over the modelled
      audience range (the pastoral formula at MAX_AUDIENCE seats). */
  const MAX_AMOUNT: int := 250_000_000

  /** The amount in cents for `audience` seats of a play of genre `g`:
      the genre's base amount, a surcharge once the audience exceeds the
      genre's threshold, and for comedy a flat rate on every seat. */
  function Amount(g: Genre, audience: Audience): (r: int)
    ensures 0 <= r <= MAX_AMOUNT <= INT32_MAX
  {
    match g
    case Tragedy =>
      TRAGEDY_BASE_AMOUNT +
      (if audience > TRAGEDY_AUDIENCE_THRESHOLD
       then TRAGEDY_OVER_BASE_CAPACITY_PER_PERSON * (audience - TRAGEDY_AUDIENCE_THRESHOLD)
       else 0)
    case Comedy =>
      COMEDY_BASE_AMOUNT +
      (if audience > COMEDY_AUDIENCE_THRESHOLD
       then COMEDY_OVER_BASE_CAPACITY_AMOUNT +
            COMEDY_OVER_BASE_CAPACITY_PER_PERSON * (audience - COMEDY_AUDIENCE_THRESHOLD)
       else 0) +
      COMEDY_AMOUNT_PER_AUDIENCE * audience
    case History =>
      HISTORY_BASE_AMOUNT +
      (if audience > HISTORY_AUDIENCE_THRESHOLD
       then HISTORY_OVER_BASE_CAPACITY_PER_PERSON * (audience - HISTORY_AUDIENCE_THRESHOLD)
       else 0)
    case Pastoral =>
      PASTORAL_BASE_AMOUNT +
      (if audience > PASTORAL_AUDIENCE_THRESHOLD
       then PASTORAL_OVER_BASE_CAPACITY_PER_PERSON * (audience - PASTORAL_AUDIENCE_THRESHOLD)
       else 0)
  }

  /** Volume credits every genre earns: one per seat above the threshold. */
  function BaseCredits(audience: Audience): (r: int)
    ensures r >= 0 && r >= audience - BASE_VOLUME_CREDIT_THRESHOLD
    ensures r == 0 || r == audience - BASE_VOLUME_CREDIT_THRESHOLD
  {
    Max(audience - BASE_VOLUME_CREDIT_THRESHOLD, 0)
  }

  /** The extra credits of a comedy: one per full group of
      COMEDY_EXTRA_VOLUME_FACTOR seats (for a non-negative audience Java's
      truncating division and Dafny's agree). */
  function ComedyBonus(audience: Audience): (r: int)
    ensures 0 <= r <= audience
    ensures r * COMEDY_EXTRA_VOLUME_FACTOR <= audience < (r + 1) * COMEDY_EXTRA_VOLUME_FACTOR
  {
    audience / COMEDY_EXTRA_VOLUME_FACTOR
  }

  /** The volume credits of `audience` seats of a play of genre `g`. */
  function VolumeCredits(g: Genre, audience: Audience): (r: int)
    ensures 0 <= r <= INT32_MAX
  {
    BaseCredits(audience) + (if g == Comedy then ComedyBonus(audience) else 0)
  }

  // ---------------------------------------------------------------------
  // A reference statement of the tariff: every genre is one rate card,
  // and one closed formula prices every card.

  datatype RateCard = RateCard(base: nat, threshold: nat, overCapacityAmount: nat,
                               perExtraSeat: nat, perSeat: nat)

  function Card(g: Genre): RateCard
  {
    match g
    case Tragedy =>
      RateCard(TRAGEDY_BASE_AMOUNT, TRAGEDY_AUDIENCE_THRESHOLD, 0,
               TRAGEDY_OVER_BASE_CAPACITY_PER_PERSON, 0)
    case Comedy =>
      RateCard(COMEDY_BASE_AMOUNT, COMEDY_AUDIENCE_THRESHOLD, COMEDY_OVER_BASE_CAPACITY_AMOUNT,
               COMEDY_OVER_BASE_CAPACITY_PER_PERSON, COMEDY_AMOUNT_PER_AUDIENCE)
    case History =>
      RateCard(HISTORY_BASE_AMOUNT, HISTORY_AUDIENCE_THRESHOLD, 0,
               HISTORY_OVER_BASE_CAPACITY_PER_PERSON, 0)
    case Pastoral =>
      RateCard(PASTORAL_BASE_AMOUNT, PASTORAL_AUDIENCE_THRESHOLD, 0,
               PASTORAL_OVER_BASE_CAPACITY_PER_PERSON, 0)
  }

  /** Base, plus the per-extra-seat rate on the seats above the threshold,
      plus the over-capacity amount once the threshold is passed, plus the
      flat per-seat rate on the whole audience. */
  function CardAmount(c: RateCard, audience: nat): int
  {
    c.base + c.perExtraSeat * Max(audience - c.threshold, 0)
    + (if audience > c.threshold then c.overCapacityAmount else 0)
    + c.perSeat * audience
  }

  /** The per-genre formulas are the rate-card formula on that genre's card. */
  lemma AmountIsCardAmount(g: Genre, audience: Audience)
    ensures Amount(g, audience) == CardAmount(Card(g), audience)
  {
  }

  /** At or below the threshold a performance costs the base amount
      (comedy: plus the flat per-seat term). */
  lemma AmountAtOrBelowThreshold(g: Genre, audience: Audience)
    requires audience <= Card(g).threshold
    ensures Amount(g, audience) == Card(g).base + Card(g).perSeat * audience
    ensures g != Comedy ==> Amount(g, audience) == Card(g).base
  {
  }

  /** Past the threshold every further seat adds exactly the per-extra-seat
      rate (comedy: plus the flat per-seat rate). */
  lemma AmountMarginalSeat(g: Genre, audience: Audience)
    requires audience >= Card(g).threshold + 1 && audience + 1 <= MAX_AUDIENCE
    ensures Amount(g, audience + 1) - Amount(g, audience) == Card(g).perExtraSeat + Card(g).perSeat
  {
  }

  /** Crossing the threshold adds the over-capacity amount once. */
  lemma AmountCrossingThreshold(g: Genre)
    requires Card(g).threshold + 1 <= MAX_AUDIENCE
    ensures Amount(g, Card(g).threshold + 1) - Amount(g, Card(g).threshold)
            == Card(g).overCapacityAmount + Card(g).perExtraSeat + Card(g).perSeat
  {
  }

  /** More seats never cost less. */
  lemma AmountMonotone(g: Genre, a: Audience, b: Audience)
    requires a <= b
    ensures Amount(g, a) <= Amount(g, b)
  {
  }

  /** The credit formula: the baseline for every genre, plus the comedy bonus. */
  lemma VolumeCreditsClosedForm(g: Genre, audience: Audience)
    ensures VolumeCredits(g, audience)
            == Max(audience - BASE_VOLUME_CREDIT_THRESHOLD, 0)
               + (if g == Comedy then audience / COMEDY_EXTRA_VOLUME_FACTOR else 0)
  {
  }

  /** More seats never earn fewer credits. */
  lemma VolumeCreditsMonotone(g: Genre, a: Audience, b: Audience)
    requires a <= b
    ensures VolumeCredits(g, a) <= VolumeCredits(g, b)
  {
  }
}
