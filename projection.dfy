/** The response projection of a method instance: `get_settings` and
    `get_data_for_response`. */
module Projection {
  import opened ShippingTypes

  /** PHP's `empty()` on an optional string: absent, "" and "0" are empty. */
  predicate EmptyText(s: Option<string>) {
    s.None? || s.value == "" || s.value == "0"
  }

  /** PHP's `empty()` on an optional setting value. */
  predicate EmptyValue(v: Option<Value>) {
    match v
    case None => true
    case Some(Text(s)) => s == "" || s == "0"
    case Some(List(xs)) => xs == []
  }

  /** `empty($x) ? '' : $x` for a string attribute. */
  function TextOrBlank(s: Option<string>): string {
    if EmptyText(s) then "" else s.value
  }

  /** `empty($x) ? '' : $x` for the `default` attribute. */
  function ValueOrBlank(v: Option<Value>): Value {
    if EmptyValue(v) then Text("") else v.value
  }

  /** `$settings[$key]`: null (None) when the key is missing. */
  function Lookup(m: Settings, key: string): Option<Value> {
    if key in m then Some(m[key]) else None
  }

  /** The response entry of one form field, its value read from `stored`. */
  function FieldView(field: FieldDescriptor, stored: Settings): (v: SettingView)
    ensures v.id == field.key && v.labelText == field.title && v.fieldType == field.fieldType
    ensures v.tip == v.description
    ensures v.value.Some? <==> field.key in stored
    ensures v.value.Some? ==> v.value.value == stored[field.key]
    ensures v.description == "" <==> EmptyText(field.description)
    ensures v.description != "" ==> field.description == Some(v.description)
    ensures v.placeholder == "" <==> EmptyText(field.placeholder)
    ensures v.placeholder != "" ==> field.placeholder == Some(v.placeholder)
    ensures EmptyValue(field.defaultValue) ==> v.defaultValue == Text("")
    ensures !EmptyValue(field.defaultValue) ==> Some(v.defaultValue) == field.defaultValue
    ensures v.options.Some? <==> field.options != []
    ensures v.options.Some? ==> v.options.value == field.options
  {
    var description := TextOrBlank(field.description);
    SettingView(
      field.key,
      field.title,
      description,
      field.fieldType,
      Lookup(stored, field.key),
      ValueOrBlank(field.defaultValue),
      description,
      TextOrBlank(field.placeholder),
      if field.options != [] then Some(field.options) else None)
  }

  /** `get_settings`: one entry per form field, in form-field order. */
  function GetSettings(fields: seq<FieldDescriptor>, stored: Settings): (r: seq<SettingView>)
    ensures |r| == |fields|
    ensures forall i :: 0 <= i < |fields| ==> r[i] == FieldView(fields[i], stored)
  {
    if fields == [] then [] else [FieldView(fields[0], stored)] + GetSettings(fields[1..], stored)
  }

  /** The keys of a form-field list. */
  function FieldKeys(fields: seq<FieldDescriptor>): set<string> {
    if fields == [] then {} else {fields[0].key} + FieldKeys(fields[1..])
  }

  /** The associative array that `$settings[$id] = $data` builds: a later
      entry with the same id replaces an earlier one. */
  function Keyed(views: seq<SettingView>): map<string, SettingView> {
    if views == [] then map[]
    else
      var rest := Keyed(views[1..]);
      if views[0].id in rest then rest else rest[views[0].id := views[0]]
  }

  lemma {:induction false} FieldKeysMembership(fields: seq<FieldDescriptor>, key: string)
    ensures key in FieldKeys(fields) <==> exists i :: 0 <= i < |fields| && fields[i].key == key
  {
    if fields != [] {
      FieldKeysMembership(fields[1..], key);
      if key in FieldKeys(fields[1..]) {
        var i :| 0 <= i < |fields[1..]| && fields[1..][i].key == key;
        assert fields[i + 1].key == key;
      }
      if exists i :: 0 <= i < |fields| && fields[i].key == key {
        var i :| 0 <= i < |fields| && fields[i].key == key;
        if i > 0 { assert fields[1..][i - 1].key == key; }
      }
    }
  }

  /** With distinct keys, there are exactly as many keys as fields. */
  lemma {:induction false} FieldKeysCount(fields: seq<FieldDescriptor>)
    ensures DistinctKeys(fields) ==> |FieldKeys(fields)| == |fields|
  {
    if fields != [] && DistinctKeys(fields) {
      var rest := fields[1..];
      assert DistinctKeys(rest) by {
        forall i, j | 0 <= i < j < |rest| ensures rest[i].key != rest[j].key {
          assert rest[i] == fields[i + 1] && rest[j] == fields[j + 1];
        }
      }
      FieldKeysCount(rest);
      FieldKeysMembership(rest, fields[0].key);
    }
  }

  /** The settings object is keyed by field id: it holds exactly the form
      fields' keys, and the entry for a key carries that key as `id` and the
      stored value of that key as `value`. */
  lemma {:induction false} SettingsKeyedByField(fields: seq<FieldDescriptor>, stored: Settings)
    ensures Keyed(GetSettings(fields, stored)).Keys == FieldKeys(fields)
    ensures forall k :: k in FieldKeys(fields) ==>
      Keyed(GetSettings(fields, stored))[k].id == k &&
      Keyed(GetSettings(fields, stored))[k].value == Lookup(stored, k)
  {
    if fields != [] {
      var views := GetSettings(fields, stored);
      assert views[1..] == GetSettings(fields[1..], stored);
      SettingsKeyedByField(fields[1..], stored);
    }
  }

  /** `get_data_for_response`. `obj` is the method object as the controller
      holds it; `stored` is the settings that `get_settings` re-reads through
      `init_instance_settings`. The top-level `title` comes from the object's
      own loaded settings, which is evaluated before `get_settings` runs. */
  function DataForResponse(obj: MethodRecord, stored: Settings): (r: MethodView)
    ensures r.id == obj.instanceId && r.instanceId == obj.instanceId
    ensures r.enabled <==> obj.enabled == Yes
    ensures r.order == obj.order && r.methodId == obj.methodId
    ensures r.title == Lookup(obj.settings, "title")
    ensures |r.settings| == |obj.formFields|
    ensures Keyed(r.settings).Keys == FieldKeys(obj.formFields)
    ensures DistinctKeys(obj.formFields) ==> |Keyed(r.settings)| == |obj.formFields|
    ensures forall k :: k in Keyed(r.settings) ==>
      Keyed(r.settings)[k].id == k && Keyed(r.settings)[k].value == Lookup(stored, k)
  {
    SettingsKeyedByField(obj.formFields, stored);
    FieldKeysCount(obj.formFields);
    MethodView(
      obj.instanceId,
      obj.instanceId,
      Lookup(obj.settings, "title"),
      obj.order,
      obj.enabled == Yes,
      obj.methodId,
      obj.methodTitle,
      obj.methodDescription,
      GetSettings(obj.formFields, stored))
  }

  /** The projection of an instance as just loaded from the store, where the
      object's settings are the stored ones. */
  function Project(rec: MethodRecord): MethodView {
    DataForResponse(rec, rec.settings)
  }
}
