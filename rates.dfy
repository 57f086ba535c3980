// The static rate tables of the estimator. Their values live in a data module
// that is not part of this model, so every operation takes them as a parameter.

module Rates {
  import opened Strings

  /** One S3 storage class: dollars per GB-month, per 1000 PUTs, per 1000 GETs. */
  datatype S3Price = S3Price(storageGb: real, put1k: real, get1k: real)

  /** One SQL warehouse size: compute units per hour and dollars per hour. */
  datatype WarehousePrice = WarehousePrice(dbtPerHr: real, costPerHr: real)

  datatype RateTables = RateTables(
    dbuRates: map<string, real>,               // DBU_RATES: tier label -> base DBU rate
    tierOrder: seq<string>,                    // DBU_RATES.keys(), in insertion order
    instanceRates: map<string, real>,          // FLAT_INSTANCE_LIST: instance type -> $/hour
    instanceList: seq<string>,                 // INSTANCE_LIST, the choices of the job editor
    s3Pricing: map<string, S3Price>,           // S3_PRICING
    warehousePricing: map<string, WarehousePrice>,  // SQL_WAREHOUSE_PRICING, keyed by size key
    warehouseSizes: seq<string>,               // SQL_WAREHOUSE_SIZES, the size labels
    photonMultiplier: real,                    // PHOTON_PREMIUM_MULTIPLIER
    spotMultiplier: real)                      // SPOT_DISCOUNT_MULTIPLIER
  {
    /** What the initialiser and the job editor read from the tables without a guard:
        the tier keys in order (each a "<group> / <name>" label, since the initial
        job name takes the part after " / "), a first instance type and a first
        warehouse size. */
    predicate WellFormed()
    {
      && (forall i, j :: 0 <= i < j < |tierOrder| ==> tierOrder[i] != tierOrder[j])
      && (forall t :: t in dbuRates ==> t in tierOrder)
      && (forall t :: t in tierOrder ==> t in dbuRates)
      && (forall t :: t in tierOrder ==> |Split(t, " / ")| >= 2)
      && instanceList != []
      && warehouseSizes != []
    }

    /** Prices and multipliers are never negative. */
    predicate NonNegative()
    {
      && (forall t :: t in dbuRates ==> dbuRates[t] >= 0.0)
      && (forall k :: k in instanceRates ==> instanceRates[k] >= 0.0)
      && (forall c :: c in s3Pricing ==>
            s3Pricing[c].storageGb >= 0.0 && s3Pricing[c].put1k >= 0.0 && s3Pricing[c].get1k >= 0.0)
      && (forall z :: z in warehousePricing ==>
            warehousePricing[z].dbtPerHr >= 0.0 && warehousePricing[z].costPerHr >= 0.0)
      && photonMultiplier >= 0.0
      && spotMultiplier >= 0.0
    }
  }
}
