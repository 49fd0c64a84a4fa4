# Shipping zone methods: a verified model

This project models the shipping-zone-methods REST controller of the
WooCommerce REST API (`ShippingZoneMethods`, the `/shipping/zones/<zone_id>/methods`
endpoint). A shipping zone holds an ordered sequence of method instances,
each keyed by `instance_id`. The controller offers five operations over
the zone's instances: list, get, create, update and delete. Every change
goes through one routine, `update_fields`. That routine merges the
request's `settings` key by key, all or nothing. After the merge
succeeds it writes `order`, then `enabled`. A pure projection
(`get_data_for_response`, `get_settings`) shapes each instance for the
response.

Modules, leaf first:

- `ShippingTypes` (`types.dfy`): setting values, form-field descriptors,
  method instances (`enabled` stored as "yes"/"no"), the request, the
  response envelope, and the error codes with their HTTP statuses.
- `Projection` (`projection.dfy`): PHP's `empty()`, `get_settings` (one
  entry per form field) and `get_data_for_response`. The settings object is
  modelled twice: as an ordered list of entries, and through `Keyed` as the
  associative array keyed by field id.
- `SettingsMerge` (`settings_merge.dfy`): dispatch of a field to its type's
  validator, falling back to the text validator. Also the merge loop of
  `update_fields` (`MergeSettings`, with `break` on the first rejected
  value), its specification `Merge`, and the atomicity and per-key lemmas.
- `ZoneStore` (`zone_store.dfy`): the host state, as class `Store`. It
  holds the zones with their instances, the auto-increment counter that
  allocates instance ids, and a ghost log of fired actions. Its invariant:
  instance ids are positive, below the counter, and unique across all
  zones.
- `ShippingZoneMethods` (`controller.dfy`): the controller operations as
  methods on a `Store`, and the pure statement `ApplyFields` of what
  `update_fields` stores.

Host inputs are parameters:

- the method-type catalog that `add_shipping_method` consults;
- the validators, as a set of registered field types plus an
  uninterpreted value-or-error function;
- whether the store reports the `is_enabled` write as affecting a row
  (`enabledAffected`).

Some behaviour of the controller is easy to miss:

- The response's top-level `title` is read from the method object's
  settings, loaded at line 311 before the new settings are persisted.
  `get_settings` re-reads the stored settings. So after an update of
  `title`, the top-level `title` is the old value and `settings.title.value`
  is the new one (`UpdatedView`, `UpdatedResponse`).
- Settings keys outside the declared form fields are not removed. The
  merge starts from the loaded settings and keeps every key they had.
- An unknown `method_id` does not raise a creation error.
  `add_shipping_method` returns 0, the lookup finds no instance 0, and the
  result is `woocommerce_rest_shipping_zone_not_created`/500.
- `get_items` returns the zone's methods in the order the host hands them
  over. It nowhere sorts by `order` itself.

## Model

| member | source | states |
|---|---|---|
| `Projection.FieldView` | src/Controllers/Version4/ShippingZoneMethods.php:398-410 | a field's entry has the field's key as id, and its title and type as label and type (null when absent); its value is the stored setting, null exactly when the key is not stored; tip equals description; description and placeholder are "" exactly when PHP's `empty()` holds of them and the field's own text otherwise; an empty default is "", any other the default itself; options are present exactly when the field's options are non-empty |
| `Projection.GetSettings` | src/Controllers/Version4/ShippingZoneMethods.php:394-414 | exactly one entry per form field, in form-field order, each the field's entry over the stored settings |
| `Projection.SettingsKeyedByField` | src/Controllers/Version4/ShippingZoneMethods.php:397-413 | the settings object keyed by id has exactly the form fields' keys; each key's entry has that id and the stored value of that key |
| `Projection.FieldKeysCount` | src/Controllers/Version4/ShippingZoneMethods.php:397 | with distinct keys there are as many settings entries as form fields |
| `Projection.DataForResponse` | src/Controllers/Version4/ShippingZoneMethods.php:360-372 | `id` and `instance_id` are the instance id; `enabled` is true exactly when the stored flag is "yes"; `title` comes from the object's loaded settings; the settings object holds one entry per declared key with the stored value |
| `SettingsMerge.MergeFailsIff` | src/Controllers/Version4/ShippingZoneMethods.php:314-331 | the merge fails exactly when some declared key present in the request has a value its validator rejects |
| `SettingsMerge.MergeResult` | src/Controllers/Version4/ShippingZoneMethods.php:312-327 | after a successful merge, every provided declared key holds its validated value, every other loaded key keeps its prior value, and no other key appears (undeclared request keys are ignored) |
| `SettingsMerge.MergeSettings` | src/Controllers/Version4/ShippingZoneMethods.php:310-331 | the foreach-with-break loop computes exactly the specified merge, including the abort on the first rejected value; each field goes to its type's validator when one is registered and to the text validator otherwise (an absent type dispatches as the empty one) |
| `ZoneStore.Store.AddShippingMethod` | src/Controllers/Version4/ShippingZoneMethods.php:174 | a registered type gets a fresh id, used by no instance in any zone, and is appended to the zone; an unknown type returns 0 and changes nothing |
| `ZoneStore.Store.Put` | src/Controllers/Version4/ShippingZoneMethods.php:333-346 | a write replaces only the targeted instance and keeps ids unique |
| `ZoneStore.Store.DeleteShippingMethod` | src/Controllers/Version4/ShippingZoneMethods.php:240 | removes exactly the instance; afterwards no method of the zone has its id |
| `ZoneStore.Store.DoAction` | src/Controllers/Version4/ShippingZoneMethods.php:256 | appends one action to the log |
| `ShippingZoneMethods.FirstMatch` | src/Controllers/Version4/ShippingZoneMethods.php:121-126 | the found position holds the requested instance id and no earlier one does; none is found exactly when no method has that id |
| `ShippingZoneMethods.FindMethod` | src/Controllers/Version4/ShippingZoneMethods.php:117-128 | the search loop with `break` returns the first method whose `instance_id` equals the requested id, or none |
| `ShippingZoneMethods.AbsInt` | src/Controllers/Version4/ShippingZoneMethods.php:338-339 | `absint` of the requested order is its non-negative magnitude |
| `ShippingZoneMethods.ApplyFields` | src/Controllers/Version4/ShippingZoneMethods.php:306-351 | an invalid setting gives `rest_setting_value_invalid`; a success keeps the instance's identity and form fields and keeps the record well formed |
| `ShippingZoneMethods.UpdateFieldsAtomic` | src/Controllers/Version4/ShippingZoneMethods.php:310-334 | `update_fields` fails exactly when settings are given and one provided declared value is rejected; then nothing (settings, order, enabled) is written |
| `ShippingZoneMethods.UpdateFieldsWrites` | src/Controllers/Version4/ShippingZoneMethods.php:310-348 | on success: per-key merged settings; `order` is `absint` of the request's order or unchanged; `enabled` is the request's "yes"/"no" only after a reported write, otherwise unchanged |
| `ShippingZoneMethods.UpdatedView` | src/Controllers/Version4/ShippingZoneMethods.php:362-370 | the response after an update takes `title` from the settings loaded before the update, and order, enabled and settings values from the updated instance |
| `ShippingZoneMethods.UpdatedResponse` | src/Controllers/Version4/ShippingZoneMethods.php:188-193 | the response of a successful update (and create's, and delete's `previous`): `id` is the instance id; order and enabled are the written ones; each provided declared key shows its validated value; every other declared key shows its prior value |
| `ShippingZoneMethods.UpdateFields` | src/Controllers/Version4/ShippingZoneMethods.php:306-351 | on an invalid setting the store is unchanged; otherwise exactly the targeted instance becomes the applied record; exactly one status-toggled action fires when `enabled` was written; the returned object keeps its loaded settings |
| `ShippingZoneMethods.GetItem` | src/Controllers/Version4/ShippingZoneMethods.php:110-135 | a zone error comes first; otherwise the first matching instance is projected, or `woocommerce_rest_shipping_zone_method_invalid`/404 is returned |
| `ShippingZoneMethods.GetItems` | src/Controllers/Version4/ShippingZoneMethods.php:143-159 | a zone error comes first; otherwise exactly one projected entry per method, in the zone's order |
| `ShippingZoneMethods.CreateItem` | src/Controllers/Version4/ShippingZoneMethods.php:167-195 | zone error first; an unknown type gives `woocommerce_rest_shipping_zone_not_created`/500 and changes nothing; a known type appends an instance under a fresh id; a failing `update_fields` returns its error and leaves that instance with its defaults (no rollback) |
| `ShippingZoneMethods.UpdateItem` | src/Controllers/Version4/ShippingZoneMethods.php:267-295 | zone error first; a missing instance gives 404 and changes nothing; otherwise only that instance is updated as `update_fields` specifies, and the response is the updated view |
| `ShippingZoneMethods.DeleteItem` | src/Controllers/Version4/ShippingZoneMethods.php:203-259 | zone error first; then a falsy `force` gives `woocommerce_rest_trash_not_supported`/501 before any lookup, changing nothing; a forced delete of an existing instance applies `update_fields` first, returns `{deleted: true, previous}` where `previous` is the post-update view, removes the instance so that no method of the zone keeps its id, and logs the deletion action with the instance as stored after the update (its settings reloaded by `get_settings`) |

## Left out

- Route registration (`register_routes`), the JSON schema (`get_item_schema`) and `prepare_links`. These are router, schema and URL plumbing with no behaviour of their own.
- Permission checks, and the response wrapping: the parent class's `prepare_item_for_response`, `prepare_response_for_collection` and `rest_ensure_response`. Each response is modelled as the plain data of `get_data_for_response`.
- Setting the `context` parameter before the delete snapshot (line 236). Every schema field is visible in the `view` context, so the snapshot is unaffected.
- Zone resolution (`get_zone`, in the parent controller, which is not part of this model). A zone resolves when its id is in the store. Otherwise the request fails with `woocommerce_rest_shipping_zone_invalid`/404. That code is the host's, taken as given.
- Host internals appear only through their contracts:
  - `add_shipping_method` is fresh-id allocation from a counter, with the new instance appended at order `count + 1`, enabled, with the type's defaults;
  - `delete_shipping_method` removes the instance;
  - `init_instance_settings` and `get_instance_form_fields` are the instance's stored settings and form fields;
  - the host's own `woocommerce_shipping_zone_method_added` and `_deleted` actions are not logged.
- The host sorts `get_shipping_methods` by `method_order`. The model does not sort: a zone's sequence is taken as the order the host returns, and an `order` write does not move the instance.
- The `apply_filters` hook on the persisted settings (line 333) is modelled as the identity.
- The `$wpdb->update` SQL. The `order` write is taken to reach the instance's row, since the instance was just found. For the `enabled` write, its rows-affected result is the input `enabledAffected`.
- `do_action` listeners. Fired actions are only recorded in a ghost log.
- The `validate_setting_*_field` validators live in a trait that is not part of this model. They are uninterpreted: a registered-type set and a value-or-error function.
- The namespaced `WP_Error` at line 214, which PHP would resolve to a class inside the controller's namespace. The model returns the evidently intended 501 error.
- PHP value types. Setting values are strings or lists of strings. Request parameters arrive already typed: integer ids and order, boolean `enabled` and `force`. The `(int)` casts, and `true ===` applied to a non-boolean `enabled`, are not modelled.
- PHP's `empty()` is modelled for strings ("" and "0") and lists ([]) only.
- AbsInt: integers are unbounded. PHP's `abs` of the smallest 64-bit integer, which yields a float, is not modelled.
- The reports tests (`unit-tests/Tests/Version4/Reports/Variations.php`). They exercise a different endpoint against a live database.
