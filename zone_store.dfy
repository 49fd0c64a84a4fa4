/** The host state the controller works on: the zones with their method
    instances (the zone-methods table and the instance option settings),
    the table's auto-increment counter, and a log of the actions fired. */
module ZoneStore {
  import opened ShippingTypes

  /** A method type of the host's catalog: what a new instance of it starts with. */
  datatype MethodType = MethodType(
    methodTitle: string,
    methodDescription: string,
    formFields: seq<FieldDescriptor>,
    defaults: Settings)

  /** The registered method types, by method id. */
  type Catalog = map<string, MethodType>

  predicate CatalogValid(catalog: Catalog) {
    forall methodId :: methodId in catalog ==> DistinctKeys(catalog[methodId].formFields)
  }

  /** The instance that attaching a method type creates: enabled, with the
      type's default settings, at the given order. */
  function NewRecord(id: int, methodId: string, t: MethodType, order: int): (rec: MethodRecord)
    ensures DistinctKeys(t.formFields) ==> WellFormed(rec)
  {
    MethodRecord(id, methodId, t.methodTitle, t.methodDescription, order, Yes, t.defaults, t.formFields)
  }

  /** The `do_action` calls this controller makes. */
  datatype Action =
    | StatusToggled(instanceId: int, methodId: string, zoneId: int, enabled: bool)
    | MethodDeleted(deletedMethod: MethodRecord, response: Response, request: Request)

  /** Every instance id is positive and below the counter, and every record is well formed. */
  ghost predicate IdsBelow(zs: map<int, seq<MethodRecord>>, next: int) {
    forall z, i :: z in zs && 0 <= i < |zs[z]| ==> 0 < zs[z][i].instanceId < next && WellFormed(zs[z][i])
  }

  /** Instance ids are unique across all zones, not only within one. */
  ghost predicate UniqueIds(zs: map<int, seq<MethodRecord>>) {
    forall z1, i, z2, j ::
      (z1 in zs && z2 in zs && 0 <= i < |zs[z1]| && 0 <= j < |zs[z2]| &&
       zs[z1][i].instanceId == zs[z2][j].instanceId) ==> z1 == z2 && i == j
  }

  /** Removing one entry keeps the ids unique. */
  lemma RemovePreservesUnique(zs: map<int, seq<MethodRecord>>, zoneId: int, idx: nat)
    requires UniqueIds(zs) && zoneId in zs && idx < |zs[zoneId]|
    ensures UniqueIds(zs[zoneId := zs[zoneId][..idx] + zs[zoneId][idx + 1..]])
  {
    var s := zs[zoneId];
    var t := s[..idx] + s[idx + 1..];
    var zs': map<int, seq<MethodRecord>> := zs[zoneId := t];
    assert forall j :: 0 <= j < |t| ==> t[j] == s[if j < idx then j else j + 1];
    forall z1: int, i: int, z2: int, j: int |
      z1 in zs' && z2 in zs' && 0 <= i < |zs'[z1]| && 0 <= j < |zs'[z2]| &&
      zs'[z1][i].instanceId == zs'[z2][j].instanceId
      ensures z1 == z2 && i == j
    {
      var i0 := if z1 == zoneId && i >= idx then i + 1 else i;
      var j0 := if z2 == zoneId && j >= idx then j + 1 else j;
      assert zs'[z1][i] == zs[z1][i0] && zs'[z2][j] == zs[z2][j0];
    }
  }

  /** Appending a record under the counter's id keeps the invariant, with the counter advanced. */
  lemma AppendPreservesIds(zs: map<int, seq<MethodRecord>>, next: int, zoneId: int, rec: MethodRecord)
    requires next >= 1 && IdsBelow(zs, next) && UniqueIds(zs) && zoneId in zs
    requires rec.instanceId == next && WellFormed(rec)
    ensures IdsBelow(zs[zoneId := zs[zoneId] + [rec]], next + 1)
    ensures UniqueIds(zs[zoneId := zs[zoneId] + [rec]])
  {
    var s := zs[zoneId];
    var t := s + [rec];
    var zs': map<int, seq<MethodRecord>> := zs[zoneId := t];
    assert forall j :: 0 <= j < |s| ==> t[j] == s[j];
    forall z: int, i: int | z in zs' && 0 <= i < |zs'[z]|
      ensures 0 < zs'[z][i].instanceId < next + 1 && WellFormed(zs'[z][i])
    {
      if z == zoneId && i == |s| {
        assert zs'[z][i] == rec;
      } else {
        assert zs'[z][i] == zs[z][i];
      }
    }
    forall z1: int, i: int, z2: int, j: int |
      z1 in zs' && z2 in zs' && 0 <= i < |zs'[z1]| && 0 <= j < |zs'[z2]| &&
      zs'[z1][i].instanceId == zs'[z2][j].instanceId
      ensures z1 == z2 && i == j
    {
      var new1 := z1 == zoneId && i == |s|;
      var new2 := z2 == zoneId && j == |s|;
      if !new1 { assert zs'[z1][i] == zs[z1][i]; }
      if !new2 { assert zs'[z2][j] == zs[z2][j]; }
    }
  }

  class Store {
    var zones: map<int, seq<MethodRecord>>
    var nextInstanceId: int
    ghost var actions: seq<Action>

    ghost predicate Valid()
      reads this
    {
      nextInstanceId >= 1 && IdsBelow(zones, nextInstanceId) && UniqueIds(zones)
    }

    /** A store holding the given zones, none with methods yet. */
    constructor (zoneIds: set<int>)
      ensures Valid()
      ensures zones == (map z | z in zoneIds :: []) && nextInstanceId == 1 && actions == []
    {
      zones := map z | z in zoneIds :: [];
      nextInstanceId := 1;
      actions := [];
    }

    /** `$zone->add_shipping_method( $method_id )`: for a registered method
        type, a new instance under a fresh id, appended after the zone's
        other methods; 0 and no change for an unknown type. */
    method AddShippingMethod(zoneId: int, catalog: Catalog, methodId: string) returns (id: int)
      requires Valid() && zoneId in zones && CatalogValid(catalog)
      modifies this
      ensures Valid() && actions == old(actions)
      ensures methodId !in catalog ==>
        id == 0 && unchanged(this)
      ensures methodId in catalog ==>
        && id == old(nextInstanceId) && nextInstanceId == id + 1
        && (forall z, i :: z in old(zones) && 0 <= i < |old(zones)[z]| ==> old(zones)[z][i].instanceId != id)
        && zones == old(zones)[zoneId := old(zones)[zoneId] +
             [NewRecord(id, methodId, catalog[methodId], |old(zones)[zoneId]| + 1)]]
    {
      if methodId !in catalog {
        id := 0;
        return;
      }
      id := nextInstanceId;
      var rec := NewRecord(id, methodId, catalog[methodId], |zones[zoneId]| + 1);
      AppendPreservesIds(zones, id, zoneId, rec);
      zones := zones[zoneId := zones[zoneId] + [rec]];
      nextInstanceId := id + 1;
    }

    /** Write a record back over the instance at `idx` (the host's
        `update_option` and `$wpdb->update` on that instance's row). */
    method Put(zoneId: int, idx: nat, rec: MethodRecord)
      requires Valid() && zoneId in zones && idx < |zones[zoneId]|
      requires rec.instanceId == zones[zoneId][idx].instanceId && WellFormed(rec)
      modifies this
      ensures Valid() && actions == old(actions) && nextInstanceId == old(nextInstanceId)
      ensures zones == old(zones)[zoneId := old(zones)[zoneId][idx := rec]]
    {
      zones := zones[zoneId := zones[zoneId][idx := rec]];
    }

    /** `$zone->delete_shipping_method( $instance_id )` for the instance at
        `idx`: afterwards no method of the zone has that instance id. */
    method DeleteShippingMethod(zoneId: int, idx: nat)
      requires Valid() && zoneId in zones && idx < |zones[zoneId]|
      modifies this
      ensures Valid() && actions == old(actions) && nextInstanceId == old(nextInstanceId)
      ensures zones == old(zones)[zoneId := old(zones)[zoneId][..idx] + old(zones)[zoneId][idx + 1..]]
      ensures forall j :: 0 <= j < |zones[zoneId]| ==>
        zones[zoneId][j].instanceId != old(zones)[zoneId][idx].instanceId
    {
      RemovePreservesUnique(zones, zoneId, idx);
      var s := zones[zoneId];
      var t := s[..idx] + s[idx + 1..];
      assert forall j :: 0 <= j < |t| ==> t[j] == s[if j < idx then j else j + 1];
      zones := zones[zoneId := t];
    }

    /** `do_action( ... )`: record that an action fired. */
    method DoAction(a: Action)
      modifies this`actions
      ensures actions == old(actions) + [a]
    {
      actions := actions + [a];
    }
  }
}
