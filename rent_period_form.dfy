// The rent-period estimator (components/forms/RentPeriodForm.tsx): the data of
// one lease period, its rent forecast, and the edits the form makes to its
// list of periods. Amounts are exact reals.

module RentPeriodForm {
  import opened Wrappers
  import opened Seqs

  /** How the base rent is priced: per square metre (`by_m2`) or as fixed
      monthly amounts. */
  datatype PricingMode = ByM2 | Fixed

  datatype RentPeriod = RentPeriod(
    id: string,
    from: string,
    to: string,
    onward: bool,
    pricingMode: PricingMode,
    baseRentPerM2: real,
    storageRentPerM2: real,
    serviceChargePerM2: real,
    heatingChargePerM2: real,
    fixedMonthlyBase: real,
    fixedMonthlyStorage: real,
    fixedMonthlyService: real,
    fixedMonthlyHeating: real,
    turnoverPercent: real,
    minMonthlyTurnover: real,
    maxMonthlyTurnover: real,
    advanceMonthlyTurnover: real,
    freeRentMonths: real,
    otherTaxesPercent: real,
    indexationRentPercent: real,
    indexationChargesPercent: real)

  /** Every amount, rate and count of a period is zero. */
  predicate AllAmountsZero(p: RentPeriod) {
    && p.baseRentPerM2 == 0.0 && p.storageRentPerM2 == 0.0
    && p.serviceChargePerM2 == 0.0 && p.heatingChargePerM2 == 0.0
    && p.fixedMonthlyBase == 0.0 && p.fixedMonthlyStorage == 0.0
    && p.fixedMonthlyService == 0.0 && p.fixedMonthlyHeating == 0.0
    && p.turnoverPercent == 0.0 && p.minMonthlyTurnover == 0.0
    && p.maxMonthlyTurnover == 0.0 && p.advanceMonthlyTurnover == 0.0
    && p.freeRentMonths == 0.0 && p.otherTaxesPercent == 0.0
    && p.indexationRentPercent == 0.0 && p.indexationChargesPercent == 0.0
  }

  /** createEmptyPeriod, with its random id given as `id`: a per-m² period
      with no dates, not open-ended, and every number zero. */
  function CreateEmptyPeriod(id: string): (p: RentPeriod)
    ensures p.id == id && p.from == "" && p.to == "" && !p.onward
    ensures p.pricingMode == ByM2
    ensures AllAmountsZero(p)
  {
    RentPeriod(id, "", "", false, ByM2,
               0.0, 0.0, 0.0, 0.0,
               0.0, 0.0, 0.0, 0.0,
               0.0, 0.0, 0.0, 0.0,
               0.0, 0.0, 0.0, 0.0)
  }

  datatype Forecast = Forecast(monthlyBase: real, monthlyRentExclVATExclService: real, yearlyRent: real)

  /** The monthly base rent of a period: the per-m² rates other than the
      service charge times the unit's area, or the fixed amounts other than
      the service amount. */
  function MonthlyBase(p: RentPeriod, unitArea: real): (r: real)
    ensures AllAmountsZero(p) ==> r == 0.0
    ensures p.pricingMode == ByM2 && unitArea == 0.0 ==> r == 0.0
    ensures (p.pricingMode == Fixed && p.fixedMonthlyBase >= 0.0 && p.fixedMonthlyStorage >= 0.0
             && p.fixedMonthlyHeating >= 0.0) ==> r >= p.fixedMonthlyBase
    ensures (unitArea >= 0.0 && p.baseRentPerM2 >= 0.0 && p.storageRentPerM2 >= 0.0
             && p.heatingChargePerM2 >= 0.0 && p.fixedMonthlyBase >= 0.0
             && p.fixedMonthlyStorage >= 0.0 && p.fixedMonthlyHeating >= 0.0) ==> r >= 0.0
  {
    match p.pricingMode
    case ByM2 => (p.baseRentPerM2 + p.storageRentPerM2 + p.heatingChargePerM2) * unitArea
    case Fixed => p.fixedMonthlyBase + p.fixedMonthlyStorage + p.fixedMonthlyHeating
  }

  /** computeForecast: the monthly rent excluding VAT and service is the
      monthly base, and the yearly rent is twelve such months. */
  function ComputeForecast(p: RentPeriod, unitArea: real): (fc: Forecast)
    ensures fc.monthlyBase == MonthlyBase(p, unitArea)
    ensures fc.monthlyRentExclVATExclService == fc.monthlyBase
    ensures fc.yearlyRent == 12.0 * fc.monthlyBase
  {
    var monthlyBase := MonthlyBase(p, unitArea);
    Forecast(monthlyBase, monthlyBase, monthlyBase * 12.0)
  }

  /** Per m², only the base, storage and heating rates and the area count:
      the service charge and every fixed amount are ignored. */
  lemma ByM2ForecastIgnoresOtherFields(p: RentPeriod, q: RentPeriod, unitArea: real)
    requires p.pricingMode == ByM2 && q.pricingMode == ByM2
    requires p.baseRentPerM2 == q.baseRentPerM2 && p.storageRentPerM2 == q.storageRentPerM2
    requires p.heatingChargePerM2 == q.heatingChargePerM2
    ensures ComputeForecast(p, unitArea) == ComputeForecast(q, unitArea)
  {
  }

  /** In fixed mode only the fixed base, storage and heating amounts count:
      the service amount, every per-m² rate and the area are ignored. */
  lemma FixedForecastIgnoresOtherFields(p: RentPeriod, q: RentPeriod, area1: real, area2: real)
    requires p.pricingMode == Fixed && q.pricingMode == Fixed
    requires p.fixedMonthlyBase == q.fixedMonthlyBase && p.fixedMonthlyStorage == q.fixedMonthlyStorage
    requires p.fixedMonthlyHeating == q.fixedMonthlyHeating
    ensures ComputeForecast(p, area1) == ComputeForecast(q, area2)
  {
  }

  /** Per m², the rent is proportional to the area: two units together
      rent for the sum of their rents, and no area rents for nothing. */
  lemma ByM2ForecastProportional(p: RentPeriod, area1: real, area2: real)
    requires p.pricingMode == ByM2
    ensures ComputeForecast(p, area1 + area2).monthlyBase
            == ComputeForecast(p, area1).monthlyBase + ComputeForecast(p, area2).monthlyBase
    ensures ComputeForecast(p, 0.0) == Forecast(0.0, 0.0, 0.0)
  {
    var rate := p.baseRentPerM2 + p.storageRentPerM2 + p.heatingChargePerM2;
    assert rate * (area1 + area2) == rate * area1 + rate * area2;
  }

  /** Non-negative inputs give a non-negative forecast. */
  lemma ForecastNonNegative(p: RentPeriod, unitArea: real)
    requires unitArea >= 0.0
    requires p.baseRentPerM2 >= 0.0 && p.storageRentPerM2 >= 0.0 && p.heatingChargePerM2 >= 0.0
    requires p.fixedMonthlyBase >= 0.0 && p.fixedMonthlyStorage >= 0.0 && p.fixedMonthlyHeating >= 0.0
    ensures var fc := ComputeForecast(p, unitArea);
      fc.monthlyBase >= 0.0 && fc.monthlyRentExclVATExclService >= 0.0 && fc.yearlyRent >= 0.0
  {
    if p.pricingMode == ByM2 {
      var rate := p.baseRentPerM2 + p.storageRentPerM2 + p.heatingChargePerM2;
      assert rate >= 0.0;
      assert rate * unitArea >= 0.0;
    }
  }

  /** A fresh period forecasts no rent, whatever the area. */
  lemma EmptyPeriodForecastZero(id: string, unitArea: real)
    ensures ComputeForecast(CreateEmptyPeriod(id), unitArea) == Forecast(0.0, 0.0, 0.0)
  {
  }

  /** minMaxError: a maximum turnover is set and the minimum exceeds it. */
  function MinMaxError(p: RentPeriod): (b: bool)
    ensures p.maxMonthlyTurnover <= 0.0 ==> !b
    ensures p.minMonthlyTurnover <= p.maxMonthlyTurnover ==> !b
    ensures b ==> p.minMonthlyTurnover > 0.0
  {
    p.maxMonthlyTurnover > 0.0 && p.minMonthlyTurnover > p.maxMonthlyTurnover
  }

  /** A fresh period shows no error, a positive maximum set below the minimum
      raises it, and either way of fixing the bounds clears it: unsetting the
      maximum, or raising it to the minimum. */
  lemma MinMaxErrorMeaning(p: RentPeriod, m: real)
    ensures !MinMaxError(CreateEmptyPeriod(p.id))
    ensures 0.0 < m < p.minMonthlyTurnover ==> MinMaxError(p.(maxMonthlyTurnover := m))
    ensures !MinMaxError(p.(maxMonthlyTurnover := 0.0))
    ensures !MinMaxError(p.(maxMonthlyTurnover := p.minMonthlyTurnover))
  {
  }

  /** `Partial<RentPeriod>`: the fields a form control sets, None for the
      fields it leaves alone. */
  datatype Patch = Patch(
    id: Option<string>,
    from: Option<string>,
    to: Option<string>,
    onward: Option<bool>,
    pricingMode: Option<PricingMode>,
    baseRentPerM2: Option<real>,
    storageRentPerM2: Option<real>,
    serviceChargePerM2: Option<real>,
    heatingChargePerM2: Option<real>,
    fixedMonthlyBase: Option<real>,
    fixedMonthlyStorage: Option<real>,
    fixedMonthlyService: Option<real>,
    fixedMonthlyHeating: Option<real>,
    turnoverPercent: Option<real>,
    minMonthlyTurnover: Option<real>,
    maxMonthlyTurnover: Option<real>,
    advanceMonthlyTurnover: Option<real>,
    freeRentMonths: Option<real>,
    otherTaxesPercent: Option<real>,
    indexationRentPercent: Option<real>,
    indexationChargesPercent: Option<real>)

  /** The patch that sets nothing. */
  const EmptyPatch: Patch :=
    Patch(None, None, None, None, None,
          None, None, None, None,
          None, None, None, None,
          None, None, None, None,
          None, None, None, None)

  /** `{ ...p, ...patch }`: each field the patch sets takes the patch's value,
      every other field keeps the period's. */
  function ApplyPatch(p: RentPeriod, patch: Patch): (r: RentPeriod)
    ensures patch == EmptyPatch ==> r == p
    ensures patch.id.None? ==> r.id == p.id
    ensures patch.id.Some? ==> r.id == patch.id.value
    ensures patch.from.None? ==> r.from == p.from
    ensures patch.from.Some? ==> r.from == patch.from.value
    ensures patch.to.None? ==> r.to == p.to
    ensures patch.to.Some? ==> r.to == patch.to.value
    ensures patch.onward.None? ==> r.onward == p.onward
    ensures patch.onward.Some? ==> r.onward == patch.onward.value
    ensures patch.pricingMode.None? ==> r.pricingMode == p.pricingMode
    ensures patch.pricingMode.Some? ==> r.pricingMode == patch.pricingMode.value
  {
    RentPeriod(
      patch.id.GetOr(p.id),
      patch.from.GetOr(p.from),
      patch.to.GetOr(p.to),
      patch.onward.GetOr(p.onward),
      patch.pricingMode.GetOr(p.pricingMode),
      patch.baseRentPerM2.GetOr(p.baseRentPerM2),
      patch.storageRentPerM2.GetOr(p.storageRentPerM2),
      patch.serviceChargePerM2.GetOr(p.serviceChargePerM2),
      patch.heatingChargePerM2.GetOr(p.heatingChargePerM2),
      patch.fixedMonthlyBase.GetOr(p.fixedMonthlyBase),
      patch.fixedMonthlyStorage.GetOr(p.fixedMonthlyStorage),
      patch.fixedMonthlyService.GetOr(p.fixedMonthlyService),
      patch.fixedMonthlyHeating.GetOr(p.fixedMonthlyHeating),
      patch.turnoverPercent.GetOr(p.turnoverPercent),
      patch.minMonthlyTurnover.GetOr(p.minMonthlyTurnover),
      patch.maxMonthlyTurnover.GetOr(p.maxMonthlyTurnover),
      patch.advanceMonthlyTurnover.GetOr(p.advanceMonthlyTurnover),
      patch.freeRentMonths.GetOr(p.freeRentMonths),
      patch.otherTaxesPercent.GetOr(p.otherTaxesPercent),
      patch.indexationRentPercent.GetOr(p.indexationRentPercent),
      patch.indexationChargesPercent.GetOr(p.indexationChargesPercent))
  }

  function Later<T>(first: Option<T>, second: Option<T>): Option<T> {
    if second.Some? then second else first
  }

  /** `{ ...first, ...second }` on patches. */
  function MergePatches(first: Patch, second: Patch): Patch {
    Patch(
      Later(first.id, second.id),
      Later(first.from, second.from),
      Later(first.to, second.to),
      Later(first.onward, second.onward),
      Later(first.pricingMode, second.pricingMode),
      Later(first.baseRentPerM2, second.baseRentPerM2),
      Later(first.storageRentPerM2, second.storageRentPerM2),
      Later(first.serviceChargePerM2, second.serviceChargePerM2),
      Later(first.heatingChargePerM2, second.heatingChargePerM2),
      Later(first.fixedMonthlyBase, second.fixedMonthlyBase),
      Later(first.fixedMonthlyStorage, second.fixedMonthlyStorage),
      Later(first.fixedMonthlyService, second.fixedMonthlyService),
      Later(first.fixedMonthlyHeating, second.fixedMonthlyHeating),
      Later(first.turnoverPercent, second.turnoverPercent),
      Later(first.minMonthlyTurnover, second.minMonthlyTurnover),
      Later(first.maxMonthlyTurnover, second.maxMonthlyTurnover),
      Later(first.advanceMonthlyTurnover, second.advanceMonthlyTurnover),
      Later(first.freeRentMonths, second.freeRentMonths),
      Later(first.otherTaxesPercent, second.otherTaxesPercent),
      Later(first.indexationRentPercent, second.indexationRentPercent),
      Later(first.indexationChargesPercent, second.indexationChargesPercent))
  }

  /** The empty patch changes nothing, a patch applied twice acts once, and
      two patches in a row act as their merge, the later one winning. */
  lemma PatchLaws(p: RentPeriod, x: Patch, y: Patch)
    ensures ApplyPatch(p, EmptyPatch) == p
    ensures ApplyPatch(ApplyPatch(p, x), x) == ApplyPatch(p, x)
    ensures ApplyPatch(ApplyPatch(p, x), y) == ApplyPatch(p, MergePatches(x, y))
  {
  }

  /** The patch of the "onward" checkbox: it sets `onward` and, when ticked,
      clears the end date. */
  function OnwardPatch(p: RentPeriod, checked: bool): (r: Patch)
    ensures r.onward == Some(checked) && r.to.Some?
    ensures r.to.value == "" <==> checked || p.to == ""
    ensures r.id.None? && r.pricingMode.None? && r.from.None?
  {
    EmptyPatch.(onward := Some(checked), to := Some(if checked then "" else p.to))
  }

  /** Ticking "onward" leaves the period open-ended with no end date;
      unticking keeps the end date; nothing else changes. */
  lemma OnwardRule(p: RentPeriod, checked: bool)
    ensures var q := ApplyPatch(p, OnwardPatch(p, checked));
      && q.onward == checked
      && (checked ==> q.to == "")
      && (!checked ==> q.to == p.to)
      && q == p.(onward := checked, to := q.to)
  {
  }

  /** Each control of the form patches one field: the period takes the new
      value in that field and keeps every other field. */
  lemma SingleFieldEdits(p: RentPeriod, text: string, mode: PricingMode, v: real)
    ensures ApplyPatch(p, EmptyPatch.(from := Some(text))) == p.(from := text)
    ensures ApplyPatch(p, EmptyPatch.(to := Some(text))) == p.(to := text)
    ensures ApplyPatch(p, EmptyPatch.(pricingMode := Some(mode))) == p.(pricingMode := mode)
    ensures ApplyPatch(p, EmptyPatch.(baseRentPerM2 := Some(v))) == p.(baseRentPerM2 := v)
    ensures ApplyPatch(p, EmptyPatch.(storageRentPerM2 := Some(v))) == p.(storageRentPerM2 := v)
    ensures ApplyPatch(p, EmptyPatch.(serviceChargePerM2 := Some(v))) == p.(serviceChargePerM2 := v)
    ensures ApplyPatch(p, EmptyPatch.(heatingChargePerM2 := Some(v))) == p.(heatingChargePerM2 := v)
    ensures ApplyPatch(p, EmptyPatch.(fixedMonthlyBase := Some(v))) == p.(fixedMonthlyBase := v)
    ensures ApplyPatch(p, EmptyPatch.(fixedMonthlyStorage := Some(v))) == p.(fixedMonthlyStorage := v)
    ensures ApplyPatch(p, EmptyPatch.(fixedMonthlyService := Some(v))) == p.(fixedMonthlyService := v)
    ensures ApplyPatch(p, EmptyPatch.(fixedMonthlyHeating := Some(v))) == p.(fixedMonthlyHeating := v)
    ensures ApplyPatch(p, EmptyPatch.(turnoverPercent := Some(v))) == p.(turnoverPercent := v)
    ensures ApplyPatch(p, EmptyPatch.(minMonthlyTurnover := Some(v))) == p.(minMonthlyTurnover := v)
    ensures ApplyPatch(p, EmptyPatch.(maxMonthlyTurnover := Some(v))) == p.(maxMonthlyTurnover := v)
    ensures ApplyPatch(p, EmptyPatch.(advanceMonthlyTurnover := Some(v))) == p.(advanceMonthlyTurnover := v)
    ensures ApplyPatch(p, EmptyPatch.(freeRentMonths := Some(v))) == p.(freeRentMonths := v)
    ensures ApplyPatch(p, EmptyPatch.(otherTaxesPercent := Some(v))) == p.(otherTaxesPercent := v)
    ensures ApplyPatch(p, EmptyPatch.(indexationRentPercent := Some(v))) == p.(indexationRentPercent := v)
    ensures ApplyPatch(p, EmptyPatch.(indexationChargesPercent := Some(v))) == p.(indexationChargesPercent := v)
  {
  }

  /** Editing any of the three rates or amounts that enter the forecast
      moves the monthly base by the change: per m², by the change times the
      area; at a fixed price, by the change itself. */
  lemma RateEditsMoveTheForecast(p: RentPeriod, unitArea: real, v: real)
    ensures p.pricingMode == ByM2 ==>
      MonthlyBase(ApplyPatch(p, EmptyPatch.(baseRentPerM2 := Some(v))), unitArea)
        == MonthlyBase(p, unitArea) + (v - p.baseRentPerM2) * unitArea
    ensures p.pricingMode == ByM2 ==>
      MonthlyBase(ApplyPatch(p, EmptyPatch.(storageRentPerM2 := Some(v))), unitArea)
        == MonthlyBase(p, unitArea) + (v - p.storageRentPerM2) * unitArea
    ensures p.pricingMode == ByM2 ==>
      MonthlyBase(ApplyPatch(p, EmptyPatch.(heatingChargePerM2 := Some(v))), unitArea)
        == MonthlyBase(p, unitArea) + (v - p.heatingChargePerM2) * unitArea
    ensures p.pricingMode == Fixed ==>
      MonthlyBase(ApplyPatch(p, EmptyPatch.(fixedMonthlyBase := Some(v))), unitArea)
        == MonthlyBase(p, unitArea) + (v - p.fixedMonthlyBase)
    ensures p.pricingMode == Fixed ==>
      MonthlyBase(ApplyPatch(p, EmptyPatch.(fixedMonthlyStorage := Some(v))), unitArea)
        == MonthlyBase(p, unitArea) + (v - p.fixedMonthlyStorage)
    ensures p.pricingMode == Fixed ==>
      MonthlyBase(ApplyPatch(p, EmptyPatch.(fixedMonthlyHeating := Some(v))), unitArea)
        == MonthlyBase(p, unitArea) + (v - p.fixedMonthlyHeating)
  {
    var rate := p.baseRentPerM2 + p.storageRentPerM2 + p.heatingChargePerM2;
    assert (rate + (v - p.baseRentPerM2)) * unitArea == rate * unitArea + (v - p.baseRentPerM2) * unitArea;
    assert (rate + (v - p.storageRentPerM2)) * unitArea == rate * unitArea + (v - p.storageRentPerM2) * unitArea;
    assert (rate + (v - p.heatingChargePerM2)) * unitArea == rate * unitArea + (v - p.heatingChargePerM2) * unitArea;
  }

  /** The patch of a numeric control, setting one fixed amount. */
  function FixedAmountPatch(base: Option<real>, storage: Option<real>, service: Option<real>, heating: Option<real>): Patch {
    EmptyPatch.(fixedMonthlyBase := base, fixedMonthlyStorage := storage,
                fixedMonthlyService := service, fixedMonthlyHeating := heating)
  }

  /** Editing fixed amounts never changes a per-m² forecast, and editing the
      service charge never changes any forecast. */
  lemma EditsThatKeepTheForecast(p: RentPeriod, unitArea: real, x: Patch, v: real, w: real)
    requires p.pricingMode == ByM2
    requires x == FixedAmountPatch(x.fixedMonthlyBase, x.fixedMonthlyStorage, x.fixedMonthlyService, x.fixedMonthlyHeating)
    ensures ComputeForecast(ApplyPatch(p, x), unitArea) == ComputeForecast(p, unitArea)
    ensures ComputeForecast(ApplyPatch(p, EmptyPatch.(serviceChargePerM2 := Some(v))), unitArea) == ComputeForecast(p, unitArea)
    ensures ComputeForecast(p.(pricingMode := Fixed, fixedMonthlyService := w), unitArea)
            == ComputeForecast(p.(pricingMode := Fixed), unitArea)
  {
  }

  /** `prev.map(p => p.id === id ? { ...p, ...patch } : p)`. */
  function UpdateAll(ps: seq<RentPeriod>, id: string, patch: Patch): (r: seq<RentPeriod>)
    ensures |r| == |ps|
    ensures forall i :: 0 <= i < |ps| && ps[i].id != id ==> r[i] == ps[i]
    ensures forall i :: 0 <= i < |ps| && ps[i].id == id ==> r[i] == ApplyPatch(ps[i], patch)
  {
    seq(|ps|, i requires 0 <= i < |ps| => if ps[i].id == id then ApplyPatch(ps[i], patch) else ps[i])
  }

  /** Updating an id no period has, or with the empty patch, changes
      nothing; a patch that does not set the id keeps every id in place. */
  lemma UpdateLaws(ps: seq<RentPeriod>, id: string, patch: Patch)
    ensures (forall i :: 0 <= i < |ps| ==> ps[i].id != id) ==> UpdateAll(ps, id, patch) == ps
    ensures UpdateAll(ps, id, EmptyPatch) == ps
    ensures patch.id.None? ==>
      forall i :: 0 <= i < |ps| ==> UpdateAll(ps, id, patch)[i].id == ps[i].id
  {
    PatchLaws(CreateEmptyPeriod(id), EmptyPatch, EmptyPatch);
    assert forall q :: ApplyPatch(q, EmptyPatch) == q by {
      forall q
        ensures ApplyPatch(q, EmptyPatch) == q
      {
        PatchLaws(q, EmptyPatch, EmptyPatch);
      }
    }
  }

  function HasOtherId(id: string): RentPeriod -> bool {
    (p: RentPeriod) => p.id != id
  }

  function HasId(id: string): RentPeriod -> bool {
    (p: RentPeriod) => p.id == id
  }

  /** `prev.filter(p => p.id !== id)`: every period with that id goes, the
      others stay in order. */
  function RemoveAll(ps: seq<RentPeriod>, id: string): (r: seq<RentPeriod>)
    ensures forall p :: p in r <==> p in ps && p.id != id
    ensures IsSubsequence(r, ps)
    ensures |r| == |ps| - Count(HasId(id), ps)
  {
    CountComplement(HasId(id), HasOtherId(id), ps);
    Filter(HasOtherId(id), ps)
  }

  /** Removing an id no period has changes nothing. */
  lemma {:induction false} RemoveAbsent(ps: seq<RentPeriod>, id: string)
    requires forall i :: 0 <= i < |ps| ==> ps[i].id != id
    ensures RemoveAll(ps, id) == ps
  {
    if |ps| > 0 {
      RemoveAbsent(ps[1..], id);
      assert ps == [ps[0]] + ps[1..];
    }
  }

  /** With distinct ids, removing the id of a period removes exactly that
      one, so when the list holds more than one period, as the form requires
      before it offers removal, at least one is left. */
  lemma RemoveOne(ps: seq<RentPeriod>, k: nat)
    requires k < |ps|
    requires forall i, j :: 0 <= i < j < |ps| ==> ps[i].id != ps[j].id
    ensures RemoveAll(ps, ps[k].id) == ps[..k] + ps[k + 1..]
    ensures |RemoveAll(ps, ps[k].id)| == |ps| - 1
  {
    var id := ps[k].id;
    var before, after := ps[..k], ps[k + 1..];
    assert forall i :: 0 <= i < |before| ==> before[i].id != id by {
      forall i | 0 <= i < |before|
        ensures before[i].id != id
      {
        assert before[i] == ps[i];
      }
    }
    assert forall i :: 0 <= i < |after| ==> after[i].id != id by {
      forall i | 0 <= i < |after|
        ensures after[i].id != id
      {
        assert after[i] == ps[k + 1 + i];
      }
    }
    assert ps == before + [ps[k]] + after;
    RemoveBetween(before, ps[k], after);
  }

  /** Removing the id of the one period between two id-free runs leaves the
      two runs joined. */
  lemma RemoveBetween(before: seq<RentPeriod>, x: RentPeriod, after: seq<RentPeriod>)
    requires forall i :: 0 <= i < |before| ==> before[i].id != x.id
    requires forall i :: 0 <= i < |after| ==> after[i].id != x.id
    ensures RemoveAll(before + [x] + after, x.id) == before + after
  {
    var keep := HasOtherId(x.id);
    RemoveAbsent(before, x.id);
    RemoveAbsent(after, x.id);
    assert Filter(keep, [x]) == [];
    FilterAppend(keep, before, [x]);
    assert Filter(keep, before + [x]) == before;
    FilterAppend(keep, before + [x], after);
  }

  /** `[...prev, createEmptyPeriod()]`. */
  function AppendEmpty(ps: seq<RentPeriod>, newId: string): (r: seq<RentPeriod>)
    ensures |r| == |ps| + 1 && r[..|ps|] == ps && r[|ps|] == CreateEmptyPeriod(newId)
  {
    ps + [CreateEmptyPeriod(newId)]
  }

  /** Removing a freshly added period restores the list. */
  lemma RemoveUndoesAdd(ps: seq<RentPeriod>, newId: string)
    requires forall i :: 0 <= i < |ps| ==> ps[i].id != newId
    ensures RemoveAll(AppendEmpty(ps, newId), newId) == ps
  {
    FilterAppend(HasOtherId(newId), ps, [CreateEmptyPeriod(newId)]);
    RemoveAbsent(ps, newId);
  }

  /** The list of periods the form holds in its state. */
  class PeriodList {
    var periods: seq<RentPeriod>

    /** The form starts with one empty period. */
    constructor (firstId: string)
      ensures periods == [CreateEmptyPeriod(firstId)]
    {
      periods := [CreateEmptyPeriod(firstId)];
    }

    /** update: patch every period with that id. */
    method Update(id: string, patch: Patch)
      modifies this
      ensures periods == UpdateAll(old(periods), id, patch)
    {
      periods := UpdateAll(periods, id, patch);
    }

    /** addPeriod: append an empty period with the given fresh id. */
    method AddPeriod(newId: string)
      modifies this
      ensures periods == AppendEmpty(old(periods), newId)
    {
      periods := AppendEmpty(periods, newId);
    }

    /** removePeriod: drop every period with that id. */
    method RemovePeriod(id: string)
      modifies this
      ensures periods == RemoveAll(old(periods), id)
    {
      periods := RemoveAll(periods, id);
    }
  }
}
