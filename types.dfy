/** Entities of the shipping-zone-methods endpoint: method instances as the
    host stores them, the request, the response envelope and the errors. */
module ShippingTypes {

  datatype Option<+T> = None | Some(value: T)

  /** A setting value. Scalars arrive as strings; multi-select fields hold a list. */
  datatype Value = Text(s: string) | List(items: seq<string>)

  /** One entry of a select-style field's `options` array (key => label). */
  datatype OptionEntry = OptionEntry(key: string, text: string)

  /** A form-field descriptor of a method instance. Any attribute but the
      key may be absent (None); an absent `options` array is the empty one. */
  datatype FieldDescriptor = FieldDescriptor(
    key: string,
    fieldType: Option<string>,
    title: Option<string>,
    description: Option<string>,
    defaultValue: Option<Value>,
    placeholder: Option<string>,
    options: seq<OptionEntry>)

  /** An instance's settings, as stored under its instance option key. */
  type Settings = map<string, Value>

  const Yes: string := "yes"
  const No: string := "no"

  /** A shipping method instance attached to a zone. `enabled` is stored as
      "yes" or "no"; `methodId` names the method type. */
  datatype MethodRecord = MethodRecord(
    instanceId: int,
    methodId: string,
    methodTitle: string,
    methodDescription: string,
    order: int,
    enabled: string,
    settings: Settings,
    formFields: seq<FieldDescriptor>)

  /** The request parameters the controller reads. An absent (or null)
      parameter is `None`; `force` defaults to false. */
  datatype Request = Request(
    zoneId: int,
    instanceId: int,
    methodId: string,
    settings: Option<map<string, Value>>,
    order: Option<int>,
    enabled: Option<bool>,
    force: bool)

  /** One entry of the response's `settings` object. An absent `label` or
      `type` is null (None). */
  datatype SettingView = SettingView(
    id: string,
    labelText: Option<string>,
    description: string,
    fieldType: Option<string>,
    value: Option<Value>,
    defaultValue: Value,
    tip: string,
    placeholder: string,
    options: Option<seq<OptionEntry>>)

  /** The response envelope of one method instance. */
  datatype MethodView = MethodView(
    id: int,
    instanceId: int,
    title: Option<Value>,
    order: int,
    enabled: bool,
    methodId: string,
    methodTitle: string,
    methodDescription: string,
    settings: seq<SettingView>)

  datatype Response =
    | Item(item: MethodView)
    | Collection(items: seq<MethodView>)
    | Deletion(deleted: bool, previous: MethodView)

  /** The errors the endpoint returns, with their codes and HTTP statuses. */
  datatype ApiError =
    | ZoneInvalid
    | MethodInvalid
    | NotCreated
    | TrashNotSupported
    | SettingValueInvalid
  {
    function Code(): string {
      match this
      case ZoneInvalid => "woocommerce_rest_shipping_zone_invalid"
      case MethodInvalid => "woocommerce_rest_shipping_zone_method_invalid"
      case NotCreated => "woocommerce_rest_shipping_zone_not_created"
      case TrashNotSupported => "woocommerce_rest_trash_not_supported"
      case SettingValueInvalid => "rest_setting_value_invalid"
    }

    function Status(): int {
      match this
      case ZoneInvalid => 404
      case MethodInvalid => 404
      case NotCreated => 500
      case TrashNotSupported => 501
      case SettingValueInvalid => 400
    }
  }

  datatype Result<+T> = Ok(value: T) | Err(error: ApiError)

  /** Form-field keys come from a PHP array's keys, so they are distinct. */
  predicate DistinctKeys(fields: seq<FieldDescriptor>) {
    forall i, j :: 0 <= i < j < |fields| ==> fields[i].key != fields[j].key
  }

  predicate WellFormed(rec: MethodRecord) {
    (rec.enabled == Yes || rec.enabled == No) && DistinctKeys(rec.formFields)
  }
}
