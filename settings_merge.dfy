/** The settings half of `update_fields`: per-key validation, dispatched on
    the field's type, merged into the loaded settings all-or-nothing. */
module SettingsMerge {
  import opened ShippingTypes

  /** What a `validate_setting_*_field` method returns: a value or an error. */
  datatype Checked = Accepted(value: Value) | Rejected

  /** The controller's validators, left uninterpreted: `registered` holds the
      field types that have a `validate_setting_<type>_field` method, and
      `run(type, raw, field)` is that method's result. */
  datatype Validators = Validators(registered: set<string>, run: (string, Value, FieldDescriptor) -> Checked)

  const TextType: string := "text"

  /** The validator a field type is dispatched to: its own when one exists,
      the text validator otherwise. An absent type names the method
      `validate_setting__field`, as the empty type does. */
  function ValidatorFor(v: Validators, fieldType: Option<string>): string {
    var name := if fieldType.Some? then fieldType.value else "";
    if name in v.registered then name else TextType
  }

  /** Validate one raw request value for `field`. */
  function Check(v: Validators, field: FieldDescriptor, raw: Value): Checked {
    v.run(ValidatorFor(v, field.fieldType), raw, field)
  }

  /** The merge loop from position `i` on, with `acc` the settings built so
      far: each declared field present in `provided` is validated and written
      at its key; the first rejection aborts the whole merge. */
  function MergeFrom(fields: seq<FieldDescriptor>, i: nat, acc: Settings,
                     provided: map<string, Value>, v: Validators): Option<Settings>
    requires i <= |fields|
    decreases |fields| - i
  {
    if i == |fields| then Some(acc)
    else
      var field := fields[i];
      if field.key in provided then
        match Check(v, field, provided[field.key])
        case Rejected => None
        case Accepted(x) => MergeFrom(fields, i + 1, acc[field.key := x], provided, v)
      else MergeFrom(fields, i + 1, acc, provided, v)
  }

  /** The settings that `update_fields` persists, or None when some value is invalid. */
  function Merge(fields: seq<FieldDescriptor>, loaded: Settings,
                 provided: map<string, Value>, v: Validators): Option<Settings> {
    MergeFrom(fields, 0, loaded, provided, v)
  }

  /** Declared keys, from position `i` on, for which the request has a value. */
  ghost function ProvidedKeys(fields: seq<FieldDescriptor>, i: nat, provided: map<string, Value>): set<string> {
    set j | i <= j < |fields| && fields[j].key in provided :: fields[j].key
  }

  ghost predicate SomeRejected(fields: seq<FieldDescriptor>, i: nat, provided: map<string, Value>, v: Validators) {
    exists j :: i <= j < |fields| && fields[j].key in provided && Check(v, fields[j], provided[fields[j].key]).Rejected?
  }

  lemma {:induction false} MergeFromFails(fields: seq<FieldDescriptor>, i: nat, acc: Settings,
                                          provided: map<string, Value>, v: Validators)
    requires i <= |fields|
    ensures MergeFrom(fields, i, acc, provided, v).None? <==> SomeRejected(fields, i, provided, v)
    decreases |fields| - i
  {
    if i < |fields| {
      var field := fields[i];
      if field.key in provided {
        match Check(v, field, provided[field.key])
        case Rejected =>
        case Accepted(x) =>
          MergeFromFails(fields, i + 1, acc[field.key := x], provided, v);
          assert SomeRejected(fields, i, provided, v) ==> SomeRejected(fields, i + 1, provided, v);
      } else {
        MergeFromFails(fields, i + 1, acc, provided, v);
        assert SomeRejected(fields, i, provided, v) ==> SomeRejected(fields, i + 1, provided, v);
      }
    }
  }

  /** Atomicity: the merge fails exactly when some provided value of a
      declared field is rejected by its validator. */
  lemma MergeFailsIff(fields: seq<FieldDescriptor>, loaded: Settings,
                      provided: map<string, Value>, v: Validators)
    ensures Merge(fields, loaded, provided, v).None? <==>
      exists j :: 0 <= j < |fields| && fields[j].key in provided &&
        Check(v, fields[j], provided[fields[j].key]).Rejected?
  {
    MergeFromFails(fields, 0, loaded, provided, v);
  }

  lemma {:induction false} MergeFromResult(fields: seq<FieldDescriptor>, i: nat, acc: Settings,
                                           provided: map<string, Value>, v: Validators, m: Settings)
    requires i <= |fields| && DistinctKeys(fields)
    requires MergeFrom(fields, i, acc, provided, v) == Some(m)
    ensures forall j :: i <= j < |fields| && fields[j].key in provided ==>
      fields[j].key in m && Check(v, fields[j], provided[fields[j].key]) == Accepted(m[fields[j].key])
    ensures forall k :: k in acc && k !in ProvidedKeys(fields, i, provided) ==> k in m && m[k] == acc[k]
    ensures forall k :: k in m ==> k in acc || k in ProvidedKeys(fields, i, provided)
    decreases |fields| - i
  {
    if i < |fields| {
      var field := fields[i];
      assert ProvidedKeys(fields, i, provided) ==
        ProvidedKeys(fields, i + 1, provided) + (if field.key in provided then {field.key} else {});
      if field.key in provided {
        var x := Check(v, field, provided[field.key]).value;
        MergeFromResult(fields, i + 1, acc[field.key := x], provided, v, m);
        assert field.key !in ProvidedKeys(fields, i + 1, provided);
      } else {
        MergeFromResult(fields, i + 1, acc, provided, v, m);
      }
    }
  }

  /** Per-key merge: every declared key the request provides holds its
      validated value; every other loaded key keeps its prior value; no key
      outside those two groups appears. Undeclared request keys are ignored. */
  lemma MergeResult(fields: seq<FieldDescriptor>, loaded: Settings,
                    provided: map<string, Value>, v: Validators, m: Settings)
    requires DistinctKeys(fields)
    requires Merge(fields, loaded, provided, v) == Some(m)
    ensures forall j :: 0 <= j < |fields| && fields[j].key in provided ==>
      fields[j].key in m && Check(v, fields[j], provided[fields[j].key]) == Accepted(m[fields[j].key])
    ensures forall k :: k in loaded && k !in ProvidedKeys(fields, 0, provided) ==> k in m && m[k] == loaded[k]
    ensures forall k :: k in m ==> k in loaded || k in ProvidedKeys(fields, 0, provided)
  {
    MergeFromResult(fields, 0, loaded, provided, v, m);
  }

  /** The foreach-with-break loop of `update_fields` that builds
      `$instance_settings`. */
  method MergeSettings(fields: seq<FieldDescriptor>, loaded: Settings,
                       provided: map<string, Value>, v: Validators) returns (r: Option<Settings>)
    ensures r == Merge(fields, loaded, provided, v)
  {
    var instanceSettings := loaded;
    var errorsFound := false;
    var i := 0;
    while i < |fields|
      invariant 0 <= i <= |fields| && !errorsFound
      invariant MergeFrom(fields, i, instanceSettings, provided, v) == Merge(fields, loaded, provided, v)
    {
      var field := fields[i];
      if field.key in provided {
        var value := Check(v, field, provided[field.key]);
        if value.Rejected? {
          errorsFound := true;
          break;
        }
        instanceSettings := instanceSettings[field.key := value.value];
      }
      i := i + 1;
    }
    if errorsFound {
      r := None;
    } else {
      r := Some(instanceSettings);
    }
  }
}
