/** The dashboard's view of one deal (an element of the exported JSON array) and the
    per-deal quantities and group keys its sections read. */
module Deals {
  import opened Wrappers
  import opened Values
  import opened Sequences

  type Month = m: int | 1 <= m <= 12 witness 1

  datatype YearMonth = YearMonth(year: int, month: Month)

  /** A deal: its fields, and its confirmation date ('Дата подтверждения сделки') as the
      local calendar month it falls in; `None` when the field is falsy or not a date. */
  datatype Deal = Deal(fields: Record, confirmed: Option<YearMonth>)

  const VolumeField := "Объем продажи"
  const RevenueField := "Сумма, тыс. CNY"
  const PriceField := "Цена продажи, тыс. CNY"
  const BuyerField := "Покупатель"
  const ProductField := "Продукт"
  const BasisField := "Базис"
  const RegionField := "Регион закупки"

  /** The bucket of a deal whose key field is falsy. */
  const Unspecified := "Не указан"

  const TargetYear := 2025

  function Volume(d: Deal): real {
    NumberOrZero(Get(d.fields, VolumeField))
  }

  function Revenue(d: Deal): real {
    NumberOrZero(Get(d.fields, RevenueField))
  }

  function Price(d: Deal): real {
    NumberOrZero(Get(d.fields, PriceField))
  }

  /** `price * volume`, the weight of a deal in its product's average price. */
  function Weighted(d: Deal): real {
    Price(d) * Volume(d)
  }

  // ---------------------------------------------------------------------
  // The year filter of loadData
  // ---------------------------------------------------------------------

  predicate InTargetYear(d: Deal) {
    d.confirmed.Some? && d.confirmed.value.year == TargetYear
  }

  /** `data.filter(deal => confirmDate && new Date(confirmDate).getFullYear() === 2025)`. */
  function YearFilter(data: seq<Deal>): seq<Deal> {
    Filter(data, InTargetYear)
  }

  /** The filter keeps exactly the deals confirmed in 2025, in input order. */
  lemma YearFilterKeeps(data: seq<Deal>)
    ensures forall i :: 0 <= i < |YearFilter(data)| ==>
      YearFilter(data)[i].confirmed.Some? && YearFilter(data)[i].confirmed.value.year == TargetYear
    ensures forall i :: 0 <= i < |data| && data[i].confirmed.Some? && data[i].confirmed.value.year == TargetYear ==>
      data[i] in YearFilter(data)
    ensures forall i :: 0 <= i < |YearFilter(data)| ==> YearFilter(data)[i] in data
  {
  }

  lemma YearFilterOrder(a: seq<Deal>, b: seq<Deal>)
    ensures YearFilter(a + b) == YearFilter(a) + YearFilter(b)
  {
    FilterConcat(a, b, InTargetYear);
  }

  /** Filtering twice keeps what filtering once kept. */
  lemma {:induction false} YearFilterIdempotent(data: seq<Deal>)
    ensures YearFilter(YearFilter(data)) == YearFilter(data)
  {
    FilterAll(YearFilter(data), InTargetYear);
  }

  // ---------------------------------------------------------------------
  // Group keys: `deal[field] || 'Не указан'`, and the two date keys
  // ---------------------------------------------------------------------

  /** `value || 'Не указан'`: a truthy value stays, anything falsy becomes the
      placeholder, so every bucket gets a truthy name. */
  function OrUnspecified(c: Option<Value>): (v: Value)
    ensures Truthy(c) ==> v == c.value
    ensures !Truthy(c) ==> v == Text(Unspecified)
    ensures Truthy(Some(v))
  {
    if Truthy(c) then c.value else Text(Unspecified)
  }

  function ClientKey(d: Deal): Option<Value> {
    Some(OrUnspecified(Get(d.fields, BuyerField)))
  }

  function ProductKey(d: Deal): Option<Value> {
    Some(OrUnspecified(Get(d.fields, ProductField)))
  }

  function BasisKey(d: Deal): Option<Value> {
    Some(OrUnspecified(Get(d.fields, BasisField)))
  }

  function RegionKey(d: Deal): Option<Value> {
    Some(OrUnspecified(Get(d.fields, RegionField)))
  }

  /** The month name of the monthly chart: deals without a date are skipped. */
  function MonthKey(d: Deal): Option<Month> {
    if d.confirmed.Some? then Some(d.confirmed.value.month) else None
  }

  /** The month-and-year name of the timeline. */
  function MonthYearKey(d: Deal): Option<YearMonth> {
    d.confirmed
  }

  /** The raw buyer value the final statistics count (`undefined` included). */
  function Buyer(d: Deal): Option<Value> {
    Get(d.fields, BuyerField)
  }
}
