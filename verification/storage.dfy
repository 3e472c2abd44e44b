/** StorageService (services/storage.ts): persistence of the vehicle and
    driver ids in the device's key-value store.

    The store is a map from keys to strings. Whether the storage backend
    fails is an oracle input; a failed write is modelled as changing
    nothing. */
module Storage {
  import opened Wrappers
  import opened Types

  type Store = map<string, string>

  const VEHICLE_ID_KEY: string := "vehicle_id"
  const DRIVER_ID_KEY: string := "driver_id"

  /** The errors `saveIds` and `clearIds` re-raise. */
  datatype StorageError = SaveFailed | ClearFailed

  /** `saveIds(vehicleId, driverId)`: writes exactly the two id keys. A
      backend failure is re-raised as "Failed to save data". */
  function SaveIds(st: Store, vehicleId: string, driverId: string, backendFails: bool): (r: Result<Store, StorageError>)
    ensures r.Failure? <==> backendFails
    ensures r.Failure? ==> r.error == SaveFailed
    ensures r.Success? ==>
      && r.value.Keys == st.Keys + {VEHICLE_ID_KEY, DRIVER_ID_KEY}
      && r.value[VEHICLE_ID_KEY] == vehicleId
      && r.value[DRIVER_ID_KEY] == driverId
      && forall k :: k in st && k !in {VEHICLE_ID_KEY, DRIVER_ID_KEY} ==> r.value[k] == st[k]
  {
    if backendFails then Failure(SaveFailed)
    else Success(st[VEHICLE_ID_KEY := vehicleId][DRIVER_ID_KEY := driverId])
  }

  /** A stored value counts only when it is present and not "" (the
      truthiness test of the source). */
  predicate HasValue(st: Store, key: string) {
    key in st && st[key] != ""
  }

  /** `getIds`: the stored pair when both values are present and
      non-empty, otherwise null. A backend failure is swallowed into null. */
  function GetIds(st: Store, backendFails: bool): (r: Option<StoredIds>)
    ensures r.Some? <==> !backendFails && HasValue(st, VEHICLE_ID_KEY) && HasValue(st, DRIVER_ID_KEY)
    ensures r.Some? ==> r.value == IdPair(st[VEHICLE_ID_KEY], st[DRIVER_ID_KEY])
  {
    if backendFails then None
    else
      var vehicleId := if VEHICLE_ID_KEY in st then Some(st[VEHICLE_ID_KEY]) else None;
      var driverId := if DRIVER_ID_KEY in st then Some(st[DRIVER_ID_KEY]) else None;
      if Truthy(vehicleId) && Truthy(driverId) then Some(IdPair(vehicleId.value, driverId.value))
      else None
  }

  /** `clearIds`: removes exactly the two id keys. A backend failure is
      re-raised as "Failed to clear data". */
  function ClearIds(st: Store, backendFails: bool): (r: Result<Store, StorageError>)
    ensures r.Failure? <==> backendFails
    ensures r.Failure? ==> r.error == ClearFailed
    ensures r.Success? ==>
      && r.value.Keys == st.Keys - {VEHICLE_ID_KEY, DRIVER_ID_KEY}
      && forall k :: k in r.value ==> r.value[k] == st[k]
  {
    if backendFails then Failure(ClearFailed)
    else Success(st - {VEHICLE_ID_KEY, DRIVER_ID_KEY})
  }

  /** Round trip: a successful save is read back by `getIds` exactly when
      both ids are non-empty. */
  lemma SaveThenGet(st: Store, vehicleId: string, driverId: string)
    ensures SaveIds(st, vehicleId, driverId, false).Success?
    ensures GetIds(SaveIds(st, vehicleId, driverId, false).value, false)
      == if vehicleId != "" && driverId != "" then Some(IdPair(vehicleId, driverId)) else None
  {
  }

  /** After a successful clear, `getIds` finds nothing. */
  lemma ClearThenGet(st: Store, readFails: bool)
    ensures ClearIds(st, false).Success?
    ensures GetIds(ClearIds(st, false).value, readFails) == None
  {
  }

  /** A save replaces whatever pair was stored before: only the last save
      is visible. */
  lemma SaveOverwrites(st: Store, v1: string, d1: string, v2: string, d2: string)
    ensures var once := SaveIds(st, v1, d1, false).value;
      SaveIds(once, v2, d2, false) == SaveIds(st, v2, d2, false)
  {
    var once := SaveIds(st, v1, d1, false).value;
    assert SaveIds(once, v2, d2, false).value == SaveIds(st, v2, d2, false).value;
  }
}
