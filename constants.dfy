/** The pricing configuration: base amounts in cents, audience thresholds,
    per-seat rates and the volume-credit parameters. Each value is defined
    once here and every formula refers to it by name. */
module Constants {

  const TRAGEDY_BASE_AMOUNT: nat := 40000
  const TRAGEDY_AUDIENCE_THRESHOLD: nat := 30
  const TRAGEDY_OVER_BASE_CAPACITY_PER_PERSON: nat := 1000

  const COMEDY_BASE_AMOUNT: nat := 30000
  const COMEDY_AUDIENCE_THRESHOLD: nat := 20
  const COMEDY_OVER_BASE_CAPACITY_AMOUNT: nat := 10000
  const COMEDY_OVER_BASE_CAPACITY_PER_PERSON: nat := 500
  const COMEDY_AMOUNT_PER_AUDIENCE: nat := 300

  const HISTORY_BASE_AMOUNT: nat := 20000
  const HISTORY_AUDIENCE_THRESHOLD: nat := 20
  const HISTORY_OVER_BASE_CAPACITY_PER_PERSON: nat := 1000

  const PASTORAL_BASE_AMOUNT: nat := 40000
  const PASTORAL_AUDIENCE_THRESHOLD: nat := 20
  const PASTORAL_OVER_BASE_CAPACITY_PER_PERSON: nat := 2500

  const BASE_VOLUME_CREDIT_THRESHOLD: nat := 30
  const COMEDY_EXTRA_VOLUME_FACTOR: nat := 5
}
