/** The geocoding cache: one Location row per address, with its coordinates and the instant
    the coordinates were requested. */
module Locations {
  import opened Wrappers

  datatype Location = Location(address: string, latitude: real, longitude: real, requestedAt: int)

  /** The declared field constraints: a non-blank address of at most 200 characters, a
      latitude in [-90, 90] and a longitude in [-180, 180] (checked by `full_clean`, not by
      `create`). */
  predicate LocationFieldsValid(l: Location) {
    && 1 <= |l.address| <= 200
    && -90.0 <= l.latitude <= 90.0
    && -180.0 <= l.longitude <= 180.0
  }

  /** The coordinates as `__str__` prints them, longitude first; `fmt` is Python's rendering
      of a float. */
  function CoordinatesText(l: Location, fmt: real -> string): string {
    fmt(l.longitude) + " " + fmt(l.latitude)
  }

  /** `__str__`: "address: (longitude latitude)". */
  function Display(l: Location, fmt: real -> string): (r: string)
    ensures |r| == |l.address| + |CoordinatesText(l, fmt)| + 4
    ensures r[..|l.address|] == l.address
    ensures r[|l.address|..|l.address| + 3] == ": ("
    ensures r[|l.address| + 3..|r| - 1] == CoordinatesText(l, fmt)
    ensures r[|r| - 1] == ')'
  {
    l.address + ": (" + CoordinatesText(l, fmt) + ")"
  }

  /** Every row is stored under its own address: the unique constraint on `address`. */
  ghost predicate KeyedByAddress(rows: map<string, Location>) {
    forall a :: a in rows ==> rows[a].address == a
  }

  /** `Location.objects.create(address=..., latitude=..., longitude=...)` on a table: the float
      fields convert their values first (`toFloat` is Python's `float()` on the given text),
      then the unique constraint on `address` is checked; `now` is the default `requested_at`.
      A successful insert adds exactly one row, under the new address, and keeps the others. */
  function InsertRow(rows: map<string, Location>, address: string, latitude: string, longitude: string,
                     toFloat: string -> Option<real>, now: int): (r: Result<map<string, Location>>)
    ensures r.Raise? ==> r.exc == ValueError || r.exc == IntegrityError
    ensures r.Raise? && r.exc == ValueError <==> toFloat(latitude).None? || toFloat(longitude).None?
    ensures r.Raise? && r.exc == IntegrityError <==>
      toFloat(latitude).Some? && toFloat(longitude).Some? && address in rows
    ensures r.Ok? ==> r.value.Keys == rows.Keys + {address} && address !in rows
    ensures r.Ok? ==> forall a :: a in rows ==> r.value[a] == rows[a]
    ensures r.Ok? ==> r.value[address] == Location(address, toFloat(latitude).value, toFloat(longitude).value, now)
    ensures r.Ok? && KeyedByAddress(rows) ==> KeyedByAddress(r.value)
  {
    var lat, lon := toFloat(latitude), toFloat(longitude);
    if lat.None? || lon.None? then Raise(ValueError)
    else if address in rows then Raise(IntegrityError)
    else Ok(rows[address := Location(address, lat.value, lon.value, now)])
  }

  /** `create` runs none of the field validators: a new address whose coordinates `float()`
      accepts is stored whether or not the row meets `LocationFieldsValid`, a latitude of 91
      included. */
  lemma InsertRowSkipsValidators(rows: map<string, Location>, address: string, latitude: string, longitude: string,
                                 toFloat: string -> Option<real>, now: int)
    requires address !in rows && toFloat(latitude).Some? && toFloat(longitude).Some?
    ensures InsertRow(rows, address, latitude, longitude, toFloat, now).Ok?
    ensures var row := InsertRow(rows, address, latitude, longitude, toFloat, now).value[address];
      && row == Location(address, toFloat(latitude).value, toFloat(longitude).value, now)
      && (toFloat(latitude).value > 90.0 ==> !LocationFieldsValid(row))
  {
  }

  /** The Location table, keyed by address. */
  class LocationTable {
    var rows: map<string, Location>

    ghost predicate Valid()
      reads this
    {
      KeyedByAddress(rows)
    }

    constructor ()
      ensures Valid() && rows == map[]
    {
      rows := map[];
    }

    /** `Location.objects.create`: the table afterwards is the one `InsertRow` gives, or the
        old one when the insert raises. */
    method Create(address: string, latitude: string, longitude: string,
                  toFloat: string -> Option<real>, now: int) returns (res: Result<Location>)
      requires Valid()
      modifies this
      ensures Valid()
      ensures var ins := InsertRow(old(rows), address, latitude, longitude, toFloat, now);
        && (ins.Raise? ==> res == Raise(ins.exc) && rows == old(rows))
        && (ins.Ok? ==> rows == ins.value && res == Ok(rows[address]))
    {
      var ins := InsertRow(rows, address, latitude, longitude, toFloat, now);
      if ins.Raise? {
        res := Raise(ins.exc);
      } else {
        rows := ins.value;
        res := Ok(rows[address]);
      }
    }
  }
}
