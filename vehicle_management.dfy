/**
  The vehicle types screen (src/app/vehicle/vehicle-management.tsx): the create
  form, the in-row editor, their guards and in-flight flags, and the price
  statistics.

  Prices are whole amounts (`int`); the price fields are text, read back by
  `parseFloat`, given here as a `NumberParser` (`None` is NaN).
*/
module VehicleManagement {
  import opened Wrappers
  import opened Text

  datatype Vehicle = Vehicle(vehicleId: string, vehicleType: string, price: int)

  /** The text of a create or edit form. */
  datatype VehicleForm = VehicleForm(vehicleType: string, price: string)

  const EmptyForm := VehicleForm("", "")

  /** The data handed to `onCreateVehicle`, or with the id to `onUpdateVehicle`; `price == None` is
      `parseFloat`'s NaN. */
  datatype VehicleRequest = VehicleRequest(vehicleId: Option<string>, vehicleType: string, price: Option<int>)

  /** The guard of both submit handlers: neither field is the empty string. The fields are not
      trimmed: a type of spaces passes. */
  predicate FormComplete(f: VehicleForm) {
    f.vehicleType != "" && f.price != ""
  }

  /** The request a submit sends for a form, or none when the guard refuses it. */
  function RequestFor(vehicleId: Option<string>, f: VehicleForm, parseFloat: NumberParser): (r: Option<VehicleRequest>)
    ensures r.Some? <==> FormComplete(f)
    ensures r.Some? ==> r.value.vehicleId == vehicleId && r.value.vehicleType == f.vehicleType
    ensures r.Some? ==> r.value.price == parseFloat(f.price)
  {
    if FormComplete(f) then Some(VehicleRequest(vehicleId, f.vehicleType, parseFloat(f.price))) else None
  }

  /** The edit form `handleEditClick` loads: the type, and the price written by `toString`. */
  function EditFormFor(v: Vehicle, toString: int -> string): VehicleForm {
    VehicleForm(v.vehicleType, toString(v.price))
  }

  /** Saving an edit form that was loaded and not changed sends the vehicle back as it was, as long
      as `parseFloat` reads back what `toString` wrote. */
  lemma UnchangedEditResendsVehicle(v: Vehicle, toString: int -> string, parseFloat: NumberParser)
    requires v.vehicleType != "" && toString(v.price) != ""
    requires parseFloat(toString(v.price)) == Some(v.price)
    ensures RequestFor(Some(v.vehicleId), EditFormFor(v, toString), parseFloat)
         == Some(VehicleRequest(Some(v.vehicleId), v.vehicleType, Some(v.price)))
  {
  }

  function Prices(vehicles: seq<Vehicle>): (r: seq<int>)
    ensures |r| == |vehicles|
    ensures forall i :: 0 <= i < |vehicles| ==> r[i] == vehicles[i].price
  {
    if vehicles == [] then [] else [vehicles[0].price] + Prices(vehicles[1..])
  }

  /** `Math.max(...prices)` on a non-empty list. */
  function MaxOf(prices: seq<int>): (r: int)
    requires prices != []
    ensures forall i :: 0 <= i < |prices| ==> prices[i] <= r
    ensures r in prices
  {
    if |prices| == 1 then prices[0]
    else
      var rest := MaxOf(prices[1..]);
      assert forall i :: 1 <= i < |prices| ==> prices[i] == prices[1..][i - 1];
      if prices[0] >= rest then prices[0] else rest
  }

  /** The "Prix maximum" statistic: 0 for no vehicles, otherwise the largest price, which is the
      price of one of the vehicles. */
  function MaxPrice(vehicles: seq<Vehicle>): (r: int)
    ensures vehicles == [] ==> r == 0
    ensures forall i :: 0 <= i < |vehicles| ==> vehicles[i].price <= r
    ensures vehicles != [] ==> exists i :: 0 <= i < |vehicles| && vehicles[i].price == r
  {
    if vehicles == [] then 0
    else
      var ps := Prices(vehicles);
      var m := MaxOf(ps);
      var k :| 0 <= k < |ps| && ps[k] == m;
      assert vehicles[k].price == m;
      m
  }

  function Sum(prices: seq<int>): int {
    if prices == [] then 0 else prices[0] + Sum(prices[1..])
  }

  /** A sum of `n` prices none above `m` is at most `n * m`. */
  lemma {:induction false} SumAtMost(prices: seq<int>, m: int)
    requires forall i :: 0 <= i < |prices| ==> prices[i] <= m
    ensures Sum(prices) <= |prices| * m
  {
    if prices != [] {
      assert forall i :: 0 <= i < |prices[1..]| ==> prices[1..][i] == prices[i + 1];
      SumAtMost(prices[1..], m);
    }
  }

  /** A sum of `n` prices none below `m` is at least `n * m`. */
  lemma {:induction false} SumAtLeast(prices: seq<int>, m: int)
    requires forall i :: 0 <= i < |prices| ==> m <= prices[i]
    ensures |prices| * m <= Sum(prices)
  {
    if prices != [] {
      assert forall i :: 0 <= i < |prices[1..]| ==> prices[1..][i] == prices[i + 1];
      SumAtLeast(prices[1..], m);
    }
  }

  /** The "Prix moyen" statistic: 0 for no vehicles, otherwise the mean price rounded half up as
      `Math.round` does, i.e. the integer `r` with `r - 1/2 <= mean < r + 1/2`. */
  function AveragePrice(vehicles: seq<Vehicle>): (r: int)
    ensures vehicles == [] ==> r == 0
    ensures vehicles != [] ==>
      2 * |vehicles| * r - |vehicles| <= 2 * Sum(Prices(vehicles)) < 2 * |vehicles| * r + |vehicles|
  {
    if vehicles == [] then 0
    else
      var n := |vehicles|;
      var s := Sum(Prices(vehicles));
      var r := (2 * s + n) / (2 * n);
      assert 2 * n * r <= 2 * s + n < 2 * n * r + 2 * n by {
        assert 2 * s + n == (2 * n) * r + (2 * s + n) % (2 * n);
      }
      r
  }

  /** A positive multiple of a whole number below the multiplier is a multiple of 0 or less. */
  lemma FactorBelowOne(n: int, k: int)
    requires n > 0 && n * k < n
    ensures k < 1
  {
  }

  /** A half-up rounding of `s / n` is at most `m` when `s` is at most `n * m`. */
  lemma RoundedMeanAtMost(n: int, s: int, r: int, m: int)
    requires n > 0 && 2 * n * r - n <= 2 * s && s <= n * m
    ensures r <= m
  {
    var k := r - m;
    assert 2 * n * r == 2 * (n * r);
    assert n * r == n * m + n * k;
    FactorBelowOne(n, k);
  }

  /** A half-up rounding of `s / n` is at least `m` when `s` is at least `n * m`. */
  lemma RoundedMeanAtLeast(n: int, s: int, r: int, m: int)
    requires n > 0 && 2 * s < 2 * n * r + n && n * m <= s
    ensures m <= r
  {
    var k := m - r;
    assert 2 * n * r == 2 * (n * r);
    assert n * m == n * r + n * k;
    FactorBelowOne(n, k);
  }

  /** When every vehicle has the same price, that price is both the mean and the maximum. */
  lemma UniformPriceStatistics(vehicles: seq<Vehicle>, p: int)
    requires vehicles != []
    requires forall i :: 0 <= i < |vehicles| ==> vehicles[i].price == p
    ensures AveragePrice(vehicles) == p && MaxPrice(vehicles) == p
  {
    var n, s, r := |vehicles|, Sum(Prices(vehicles)), AveragePrice(vehicles);
    SumAtMost(Prices(vehicles), p);
    SumAtLeast(Prices(vehicles), p);
    RoundedMeanAtMost(n, s, r, p);
    RoundedMeanAtLeast(n, s, r, p);
  }

  /** The rounded mean never exceeds the maximum price. */
  lemma AverageAtMostMax(vehicles: seq<Vehicle>)
    requires vehicles != []
    ensures AveragePrice(vehicles) <= MaxPrice(vehicles)
  {
    var m := MaxPrice(vehicles);
    SumAtMost(Prices(vehicles), m);
    RoundedMeanAtMost(|vehicles|, Sum(Prices(vehicles)), AveragePrice(vehicles), m);
  }

  class VehicleManagement {
    /** The `vehicles` prop. */
    var vehicles: seq<Vehicle>
    var showCreateForm: bool
    /** The id of the vehicle whose row is in edit mode, if any. */
    var editingVehicle: Option<string>
    var creatingVehicle: bool
    var updatingVehicle: bool
    var newVehicle: VehicleForm
    var editVehicle: VehicleForm

    constructor (vehicles: seq<Vehicle>)
      ensures this.vehicles == vehicles && !showCreateForm && editingVehicle == None
      ensures !creatingVehicle && !updatingVehicle && newVehicle == EmptyForm && editVehicle == EmptyForm
    {
      this.vehicles := vehicles;
      showCreateForm := false;
      editingVehicle := None;
      creatingVehicle := false;
      updatingVehicle := false;
      newVehicle := EmptyForm;
      editVehicle := EmptyForm;
    }

    /** "Nouveau véhicule". */
    method OpenCreateForm()
      modifies this`showCreateForm
      ensures showCreateForm
    {
      showCreateForm := true;
    }

    /** Typing in the create form. */
    method EditNewVehicle(f: VehicleForm)
      modifies this`newVehicle
      ensures newVehicle == f
    {
      newVehicle := f;
    }

    /** Typing in the row editor. */
    method EditEditForm(f: VehicleForm)
      modifies this`editVehicle
      ensures editVehicle == f
    {
      editVehicle := f;
    }

    /** `handleCreateVehicle` up to the `await`: an incomplete form does nothing; otherwise the
        creation is issued with `creatingVehicle` set. */
    method BeginCreate(parseFloat: NumberParser) returns (request: Option<VehicleRequest>)
      modifies this`creatingVehicle
      ensures request == RequestFor(None, newVehicle, parseFloat)
      ensures request.Some? ==> creatingVehicle
      ensures request.None? ==> creatingVehicle == old(creatingVehicle)
    {
      if newVehicle.vehicleType == "" || newVehicle.price == "" {
        request := None;
      } else {
        creatingVehicle := true;
        request := Some(VehicleRequest(None, newVehicle.vehicleType, parseFloat(newVehicle.price)));
      }
    }

    /** `handleCreateVehicle` after the `await`: success empties and hides the form, failure keeps
        both; the flag is cleared either way. */
    method FinishCreate(outcome: Outcome)
      modifies this`creatingVehicle, this`newVehicle, this`showCreateForm
      ensures !creatingVehicle
      ensures outcome == Ok ==> newVehicle == EmptyForm && !showCreateForm
      ensures outcome == Err ==> newVehicle == old(newVehicle) && showCreateForm == old(showCreateForm)
    {
      if outcome == Ok {
        newVehicle := EmptyForm;
        showCreateForm := false;
      }
      creatingVehicle := false;
    }

    /** The row of `vehicleId` is in edit mode. */
    predicate Editing(vehicleId: string)
      reads this
    {
      editingVehicle == Some(vehicleId)
    }

    /** "Modifier" on a row; `toString` is `Number.prototype.toString`. */
    method HandleEditClick(v: Vehicle, toString: int -> string)
      modifies this`editingVehicle, this`editVehicle
      ensures Editing(v.vehicleId)
      ensures editVehicle == EditFormFor(v, toString)
    {
      editingVehicle := Some(v.vehicleId);
      editVehicle := VehicleForm(v.vehicleType, toString(v.price));
    }

    /** `handleUpdateVehicle(vehicleId)` up to the `await`: an incomplete form does nothing;
        otherwise the update is issued with `updatingVehicle` set. */
    method BeginUpdate(vehicleId: string, parseFloat: NumberParser) returns (request: Option<VehicleRequest>)
      modifies this`updatingVehicle
      ensures request == RequestFor(Some(vehicleId), editVehicle, parseFloat)
      ensures request.Some? ==> updatingVehicle
      ensures request.None? ==> updatingVehicle == old(updatingVehicle)
    {
      if editVehicle.vehicleType == "" || editVehicle.price == "" {
        request := None;
      } else {
        updatingVehicle := true;
        request := Some(VehicleRequest(Some(vehicleId), editVehicle.vehicleType, parseFloat(editVehicle.price)));
      }
    }

    /** `handleUpdateVehicle` after the `await`: success leaves edit mode, failure stays in it; the
        flag is cleared either way. The editor's text is not cleared. */
    method FinishUpdate(outcome: Outcome)
      modifies this`updatingVehicle, this`editingVehicle
      ensures !updatingVehicle
      ensures outcome == Ok ==> editingVehicle == None
      ensures outcome == Err ==> editingVehicle == old(editingVehicle)
    {
      if outcome == Ok {
        editingVehicle := None;
      }
      updatingVehicle := false;
    }

    /** `cancelEdit`. */
    method CancelEdit()
      modifies this`editingVehicle, this`editVehicle
      ensures editingVehicle == None && editVehicle == EmptyForm
    {
      editingVehicle := None;
      editVehicle := EmptyForm;
    }

    /** `cancelCreate`. */
    method CancelCreate()
      modifies this`showCreateForm, this`newVehicle
      ensures !showCreateForm && newVehicle == EmptyForm
    {
      showCreateForm := false;
      newVehicle := EmptyForm;
    }
  }
}
