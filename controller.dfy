/** The shipping-zone-methods controller: list, get, create, update and
    delete of the method instances of a zone, all mutation going through
    `update_fields`. */
module ShippingZoneMethods {
  import opened ShippingTypes
  import opened Projection
  import opened SettingsMerge
  import opened ZoneStore

  /** The position of the first method whose instance id is `instanceId`. */
  function FirstMatch(methods: seq<MethodRecord>, instanceId: int): (r: Option<nat>)
    ensures r.Some? ==> r.value < |methods| && methods[r.value].instanceId == instanceId
    ensures r.Some? ==> forall j :: 0 <= j < r.value ==> methods[j].instanceId != instanceId
    ensures r.None? ==> forall j :: 0 <= j < |methods| ==> methods[j].instanceId != instanceId
  {
    if methods == [] then None
    else if methods[0].instanceId == instanceId then Some(0)
    else match FirstMatch(methods[1..], instanceId)
      case None => None
      case Some(k) => Some(k + 1)
  }

  /** The foreach-and-break search the operations run over a zone's methods. */
  method FindMethod(methods: seq<MethodRecord>, instanceId: int) returns (found: Option<nat>)
    ensures found == FirstMatch(methods, instanceId)
  {
    found := None;
    var i := 0;
    while i < |methods|
      invariant 0 <= i <= |methods| && found.None?
      invariant forall j :: 0 <= j < i ==> methods[j].instanceId != instanceId
    {
      if methods[i].instanceId == instanceId {
        found := Some(i);
        break;
      }
      i := i + 1;
    }
  }

  /** WordPress's `absint` on an integer. */
  function AbsInt(n: int): (r: nat)
    ensures r == n || r == -n
  {
    if n < 0 then -n else n
  }

  /** `true === $request['enabled'] ? 'yes' : 'no'`. */
  function YesNo(b: bool): string {
    if b then Yes else No
  }

  /** The instance as stored after `update_fields`: the merged settings, then
      `order` when given, then `enabled` when given and the store reports
      the write as affecting a row. None of it happens when a setting is
      invalid. */
  function ApplyFields(rec: MethodRecord, req: Request, v: Validators, enabledAffected: bool): (r: Result<MethodRecord>)
    ensures r.Err? ==> r.error == SettingValueInvalid
    ensures r.Ok? ==> r.value.instanceId == rec.instanceId && r.value.methodId == rec.methodId
    ensures r.Ok? ==> r.value.formFields == rec.formFields && r.value.methodTitle == rec.methodTitle
    ensures r.Ok? ==> r.value.methodDescription == rec.methodDescription
    ensures r.Ok? && WellFormed(rec) ==> WellFormed(r.value)
  {
    var merged := if req.settings.Some? then Merge(rec.formFields, rec.settings, req.settings.value, v)
                  else Some(rec.settings);
    match merged
    case None => Err(SettingValueInvalid)
    case Some(settings) =>
      var order := if req.order.Some? then AbsInt(req.order.value) else rec.order;
      var enabled := if req.enabled.Some? && enabledAffected then YesNo(req.enabled.value) else rec.enabled;
      Ok(rec.(settings := settings, order := order, enabled := enabled))
  }

  /** `update_fields` fails exactly when settings are given and one of the
      declared keys they provide has a value its validator rejects. */
  lemma UpdateFieldsAtomic(rec: MethodRecord, req: Request, v: Validators, enabledAffected: bool)
    ensures ApplyFields(rec, req, v, enabledAffected).Err? <==>
      req.settings.Some? &&
      exists j :: 0 <= j < |rec.formFields| && rec.formFields[j].key in req.settings.value &&
        Check(v, rec.formFields[j], req.settings.value[rec.formFields[j].key]).Rejected?
  {
    if req.settings.Some? {
      MergeFailsIff(rec.formFields, rec.settings, req.settings.value, v);
    }
  }

  /** What a successful `update_fields` stores: each declared key the request
      provides holds its validated value and every other key its prior value;
      `order` is `absint` of the request's or unchanged; `enabled` is "yes" or
      "no" after a reported write and unchanged otherwise. */
  lemma UpdateFieldsWrites(rec: MethodRecord, req: Request, v: Validators, enabledAffected: bool)
    requires WellFormed(rec) && ApplyFields(rec, req, v, enabledAffected).Ok?
    ensures var after := ApplyFields(rec, req, v, enabledAffected).value;
      && (req.settings.None? ==> after.settings == rec.settings)
      && (req.settings.Some? ==>
            && (forall j :: 0 <= j < |rec.formFields| && rec.formFields[j].key in req.settings.value ==>
                  rec.formFields[j].key in after.settings &&
                  Check(v, rec.formFields[j], req.settings.value[rec.formFields[j].key]) ==
                    Accepted(after.settings[rec.formFields[j].key]))
            && (forall k :: k in rec.settings && k !in ProvidedKeys(rec.formFields, 0, req.settings.value) ==>
                  k in after.settings && after.settings[k] == rec.settings[k])
            && (forall k :: k in after.settings ==>
                  k in rec.settings || k in ProvidedKeys(rec.formFields, 0, req.settings.value)))
      && after.order == (if req.order.Some? then AbsInt(req.order.value) else rec.order)
      && (after.enabled == Yes <==>
            if req.enabled.Some? && enabledAffected then req.enabled.value else rec.enabled == Yes)
  {
    if req.settings.Some? {
      var after := ApplyFields(rec, req, v, enabledAffected).value;
      MergeResult(rec.formFields, rec.settings, req.settings.value, v, after.settings);
    }
  }

  /** The actions `update_fields` fires: one status toggle when `enabled` was
      given and its write reported success. */
  function Toggled(rec: MethodRecord, req: Request, enabledAffected: bool): seq<Action> {
    if req.enabled.Some? && enabledAffected
    then [StatusToggled(rec.instanceId, rec.methodId, req.zoneId, req.enabled.value)]
    else []
  }

  /** The response after `update_fields` turned `before` into the stored
      `after`. The method object keeps the settings it loaded before the
      update, so the top-level title is the earlier one, while `get_settings`
      re-reads the stored settings. */
  function UpdatedView(before: MethodRecord, after: MethodRecord): (r: MethodView)
    ensures r.title == Lookup(before.settings, "title")
    ensures r.order == after.order && (r.enabled <==> after.enabled == Yes)
    ensures r.id == after.instanceId
    ensures forall k :: k in Keyed(r.settings) ==> Keyed(r.settings)[k].value == Lookup(after.settings, k)
  {
    DataForResponse(after.(settings := before.settings), after.settings)
  }

  /** The response of a successful update (and create's, and delete's
      `previous` snapshot): its id is the instance id; its title is the one
      loaded before the update; its order and enabled flag are the updated
      ones; in its settings object every provided declared key shows its
      validated value and every other declared key its prior value. */
  lemma UpdatedResponse(before: MethodRecord, req: Request, v: Validators, enabledAffected: bool)
    requires WellFormed(before) && ApplyFields(before, req, v, enabledAffected).Ok?
    ensures var view := UpdatedView(before, ApplyFields(before, req, v, enabledAffected).value);
      && view.id == before.instanceId && view.instanceId == before.instanceId
      && view.title == Lookup(before.settings, "title")
      && view.order == (if req.order.Some? then AbsInt(req.order.value) else before.order)
      && (view.enabled <==>
            if req.enabled.Some? && enabledAffected then req.enabled.value else before.enabled == Yes)
      && (forall j :: 0 <= j < |before.formFields| ==> before.formFields[j].key in Keyed(view.settings))
      && (forall j :: (0 <= j < |before.formFields| && req.settings.Some? &&
                       before.formFields[j].key in req.settings.value) ==>
            var check := Check(v, before.formFields[j], req.settings.value[before.formFields[j].key]);
            check.Accepted? && Keyed(view.settings)[before.formFields[j].key].value == Some(check.value))
      && (forall j :: (0 <= j < |before.formFields| &&
                       (req.settings.None? || before.formFields[j].key !in req.settings.value)) ==>
            Keyed(view.settings)[before.formFields[j].key].value == Lookup(before.settings, before.formFields[j].key))
  {
    var after := ApplyFields(before, req, v, enabledAffected).value;
    var view := UpdatedView(before, after);
    UpdateFieldsWrites(before, req, v, enabledAffected);
    forall j | 0 <= j < |before.formFields|
      ensures before.formFields[j].key in Keyed(view.settings)
    {
      FieldKeysMembership(before.formFields, before.formFields[j].key);
    }
  }

  /** Writing the entry at `i` twice leaves only the second write. */
  lemma RewriteAt(zs: map<int, seq<MethodRecord>>, z: int, i: nat, a: MethodRecord, b: MethodRecord)
    requires z in zs && i < |zs[z]|
    ensures zs[z := zs[z][i := a]][z := zs[z][i := a][i := b]] == zs[z := zs[z][i := b]]
  {
    assert zs[z][i := a][i := b] == zs[z][i := b];
  }

  /** Writing back the entry that is there changes nothing. */
  lemma WriteSameAt(zs: map<int, seq<MethodRecord>>, z: int, i: nat)
    requires z in zs && i < |zs[z]|
    ensures zs[z := zs[z][i := zs[z][i]]] == zs
  {
    assert zs[z][i := zs[z][i]] == zs[z];
  }

  /** `update_fields` on the instance at `idx` of the zone. */
  method UpdateFields(store: Store, zoneId: int, idx: nat, req: Request, v: Validators, enabledAffected: bool)
    returns (r: Result<MethodRecord>)
    requires store.Valid() && zoneId in store.zones && idx < |store.zones[zoneId]|
    modifies store
    ensures store.Valid() && store.nextInstanceId == old(store.nextInstanceId)
    ensures var before := old(store.zones)[zoneId][idx];
      match ApplyFields(before, req, v, enabledAffected)
      case Err(e) => r == Err(e) && unchanged(store)
      case Ok(after) =>
        && r == Ok(after.(settings := before.settings))
        && store.zones == old(store.zones)[zoneId := old(store.zones)[zoneId][idx := after]]
        && store.actions == old(store.actions) + Toggled(before, req, enabledAffected)
  {
    var before := store.zones[zoneId][idx];
    var obj := before;
    var stored := before;
    ghost var zones0 := store.zones;
    if req.settings.Some? {
      var merged := MergeSettings(before.formFields, before.settings, req.settings.value, v);
      if merged.None? {
        return Err(SettingValueInvalid);
      }
      stored := stored.(settings := merged.value);
      store.Put(zoneId, idx, stored);
    } else {
      WriteSameAt(zones0, zoneId, idx);
    }
    assert store.zones == zones0[zoneId := zones0[zoneId][idx := stored]];
    if req.order.Some? {
      var order := AbsInt(req.order.value);
      RewriteAt(zones0, zoneId, idx, stored, stored.(order := order));
      stored := stored.(order := order);
      store.Put(zoneId, idx, stored);
      assert store.zones == zones0[zoneId := zones0[zoneId][idx := stored]];
      obj := obj.(order := order);
    }
    if req.enabled.Some? {
      if enabledAffected {
        var enabled := YesNo(req.enabled.value);
        store.DoAction(StatusToggled(before.instanceId, before.methodId, req.zoneId, req.enabled.value));
        RewriteAt(zones0, zoneId, idx, stored, stored.(enabled := enabled));
        stored := stored.(enabled := enabled);
        store.Put(zoneId, idx, stored);
        assert store.zones == zones0[zoneId := zones0[zoneId][idx := stored]];
        obj := obj.(enabled := enabled);
      }
    }
    assert obj == stored.(settings := before.settings);
    r := Ok(obj);
  }

  /** `get_item`. */
  method GetItem(store: Store, req: Request) returns (r: Result<Response>)
    ensures req.zoneId !in store.zones ==> r == Err(ZoneInvalid)
    ensures req.zoneId in store.zones ==>
      match FirstMatch(store.zones[req.zoneId], req.instanceId)
      case None => r == Err(MethodInvalid)
      case Some(k) => r == Ok(Item(Project(store.zones[req.zoneId][k])))
  {
    if req.zoneId !in store.zones {
      return Err(ZoneInvalid);
    }
    var methods := store.zones[req.zoneId];
    var found := FindMethod(methods, req.instanceId);
    if found.None? {
      return Err(MethodInvalid);
    }
    r := Ok(Item(Project(methods[found.value])));
  }

  /** `get_items`: one projected entry per method of the zone, in the zone's order. */
  method GetItems(store: Store, req: Request) returns (r: Result<Response>)
    ensures req.zoneId !in store.zones ==> r == Err(ZoneInvalid)
    ensures req.zoneId in store.zones ==>
      && r.Ok? && r.value.Collection?
      && |r.value.items| == |store.zones[req.zoneId]|
      && forall i :: 0 <= i < |r.value.items| ==> r.value.items[i] == Project(store.zones[req.zoneId][i])
  {
    if req.zoneId !in store.zones {
      return Err(ZoneInvalid);
    }
    var methods := store.zones[req.zoneId];
    var data: seq<MethodView> := [];
    var i := 0;
    while i < |methods|
      invariant 0 <= i <= |methods| && |data| == i
      invariant forall j :: 0 <= j < i ==> data[j] == Project(methods[j])
    {
      data := data + [Project(methods[i])];
      i := i + 1;
    }
    r := Ok(Collection(data));
  }

  /** `create_item`: attach the method type, find the new instance, then
      apply `update_fields`. A failing `update_fields` is not rolled back:
      the new instance stays with its defaults. */
  method CreateItem(store: Store, catalog: Catalog, req: Request, v: Validators, enabledAffected: bool)
    returns (r: Result<Response>)
    requires store.Valid() && CatalogValid(catalog)
    modifies store
    ensures store.Valid()
    ensures req.zoneId !in old(store.zones) ==> r == Err(ZoneInvalid) && unchanged(store)
    ensures req.zoneId in old(store.zones) && req.methodId !in catalog ==>
      r == Err(NotCreated) && unchanged(store)
    ensures req.zoneId in old(store.zones) && req.methodId in catalog ==>
      var zone := old(store.zones)[req.zoneId];
      var before := NewRecord(old(store.nextInstanceId), req.methodId, catalog[req.methodId], |zone| + 1);
      && store.nextInstanceId == old(store.nextInstanceId) + 1
      && match ApplyFields(before, req, v, enabledAffected)
         case Err(e) =>
           && r == Err(e)
           && store.zones == old(store.zones)[req.zoneId := zone + [before]]
           && store.actions == old(store.actions)
         case Ok(after) =>
           && r == Ok(Item(UpdatedView(before, after)))
           && store.zones == old(store.zones)[req.zoneId := zone + [after]]
           && store.actions == old(store.actions) + Toggled(before, req, enabledAffected)
  {
    if req.zoneId !in store.zones {
      return Err(ZoneInvalid);
    }
    ghost var zone := store.zones[req.zoneId];
    var instanceId := store.AddShippingMethod(req.zoneId, catalog, req.methodId);
    var methods := store.zones[req.zoneId];
    var found := FindMethod(methods, instanceId);
    if req.methodId in catalog {
      assert methods[|zone|].instanceId == instanceId;
      assert found == Some(|zone|);
    }
    if found.None? {
      return Err(NotCreated);
    }
    var before := methods[found.value];
    var updated := UpdateFields(store, req.zoneId, found.value, req, v, enabledAffected);
    if updated.Err? {
      return Err(updated.error);
    }
    ghost var after := store.zones[req.zoneId][found.value];
    assert methods[found.value := after] == zone + [after];
    assert store.zones == old(store.zones)[req.zoneId := zone + [after]];
    r := Ok(Item(DataForResponse(updated.value, store.zones[req.zoneId][found.value].settings)));
  }

  /** `update_item`. */
  method UpdateItem(store: Store, req: Request, v: Validators, enabledAffected: bool)
    returns (r: Result<Response>)
    requires store.Valid()
    modifies store
    ensures store.Valid()
    ensures req.zoneId !in old(store.zones) ==> r == Err(ZoneInvalid) && unchanged(store)
    ensures req.zoneId in old(store.zones) && FirstMatch(old(store.zones)[req.zoneId], req.instanceId).None? ==>
      r == Err(MethodInvalid) && unchanged(store)
    ensures req.zoneId in old(store.zones) && FirstMatch(old(store.zones)[req.zoneId], req.instanceId).Some? ==>
      var zone := old(store.zones)[req.zoneId];
      var k := FirstMatch(zone, req.instanceId).value;
      var before := zone[k];
      match ApplyFields(before, req, v, enabledAffected)
      case Err(e) => r == Err(e) && unchanged(store)
      case Ok(after) =>
        && r == Ok(Item(UpdatedView(before, after)))
        && store.zones == old(store.zones)[req.zoneId := zone[k := after]]
        && store.nextInstanceId == old(store.nextInstanceId)
        && store.actions == old(store.actions) + Toggled(before, req, enabledAffected)
  {
    if req.zoneId !in store.zones {
      return Err(ZoneInvalid);
    }
    var methods := store.zones[req.zoneId];
    var found := FindMethod(methods, req.instanceId);
    if found.None? {
      return Err(MethodInvalid);
    }
    var updated := UpdateFields(store, req.zoneId, found.value, req, v, enabledAffected);
    if updated.Err? {
      return Err(updated.error);
    }
    r := Ok(Item(DataForResponse(updated.value, store.zones[req.zoneId][found.value].settings)));
  }

  /** `delete_item`: a non-forced delete is refused before the instance is
      looked up; a forced one applies `update_fields` first, takes the
      `previous` snapshot of the updated instance, then removes it. The
      deletion hook receives the instance as stored after the update. */
  method DeleteItem(store: Store, req: Request, v: Validators, enabledAffected: bool)
    returns (r: Result<Response>)
    requires store.Valid()
    modifies store
    ensures store.Valid()
    ensures req.zoneId !in old(store.zones) ==> r == Err(ZoneInvalid) && unchanged(store)
    ensures req.zoneId in old(store.zones) && !req.force ==> r == Err(TrashNotSupported) && unchanged(store)
    ensures req.zoneId in old(store.zones) && req.force &&
            FirstMatch(old(store.zones)[req.zoneId], req.instanceId).None? ==>
      r == Err(MethodInvalid) && unchanged(store)
    ensures req.zoneId in old(store.zones) && req.force &&
            FirstMatch(old(store.zones)[req.zoneId], req.instanceId).Some? ==>
      var zone := old(store.zones)[req.zoneId];
      var k := FirstMatch(zone, req.instanceId).value;
      var before := zone[k];
      match ApplyFields(before, req, v, enabledAffected)
      case Err(e) => r == Err(e) && unchanged(store)
      case Ok(after) =>
        && r == Ok(Deletion(true, UpdatedView(before, after)))
        && store.zones == old(store.zones)[req.zoneId := zone[..k] + zone[k + 1..]]
        && (forall j :: 0 <= j < |store.zones[req.zoneId]| ==> store.zones[req.zoneId][j].instanceId != req.instanceId)
        && store.nextInstanceId == old(store.nextInstanceId)
        && store.actions == old(store.actions) + Toggled(before, req, enabledAffected) +
             [MethodDeleted(after, r.value, req)]
  {
    if req.zoneId !in store.zones {
      return Err(ZoneInvalid);
    }
    if !req.force {
      return Err(TrashNotSupported);
    }
    var methods := store.zones[req.zoneId];
    var found := FindMethod(methods, req.instanceId);
    if found.None? {
      return Err(MethodInvalid);
    }
    var updated := UpdateFields(store, req.zoneId, found.value, req, v, enabledAffected);
    if updated.Err? {
      return Err(updated.error);
    }
    var stored := store.zones[req.zoneId][found.value].settings;
    var previous := DataForResponse(updated.value, stored);
    // `get_settings` reloaded the object's settings from the store while
    // building `previous`, so the object the hook receives holds the stored ones.
    var hooked := updated.value.(settings := stored);
    store.DeleteShippingMethod(req.zoneId, found.value);
    var response := Deletion(true, previous);
    store.DoAction(MethodDeleted(hooked, response, req));
    r := Ok(response);
  }
}
