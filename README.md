# formValidator, modelled in Dafny

This project models `formValidator` from js-form-validator. It is a small dispatcher.
For each field it derives a key with `getFieldKey`, looks up a rule under that key and runs the rule.
A rule that throws marks the field invalid, and the thrown value becomes the message.
The validator reports results through three caller-supplied callbacks: `addError`, `removeError` and `onErrors`.

The model is split into two modules.

- `Configuration` (configuration.dfy) covers the five option keys, the built-in defaults (`Defaults`) and the caller's overrides.
  - The caller's overrides are a sequence of `Setting`s, one per own property of the options object, in `for…in` order.
  - `Apply` writes one key and `Overlay` copies all the settings in order.
  - `Options` is the shared, mutable `formValidator.prototype.defaults` object.
- `Validator` (validator.dfy) covers rule dispatch (`RunValidation`) and the class `FormValidator`.
  - The class has a constructor and four operations, each a method with a loop where the source has one.
  - Each callback call is appended to the object's `trace` as a `Notice`. The notice records which callback was called (the built-in `NoOp` or a caller's `Handler`) and the arguments it received.
  - The specification functions `FieldTrace`, `FieldsTrace`, `FieldNotices`, `Failures` and `ClearNotices` give the exact notices of each operation. The lemmas state the properties of these functions.

JavaScript is untyped, so fields and keys share one type parameter `F`. This is because the default `getFieldKey` is the identity. Events (`E`), messages (`M`) and callback handles (`H`) are opaque type parameters.

A rule is modelled as a total function `(F, E) -> Option<M>`. `Some(m)` stands for "threw `m`", and `None` stands for "returned". Whatever the rule returns is ignored, as in the source.

The rule map is a Dafny `map`, so a missing key means there is no rule for it.

The constructor models the source as written. It does not copy the defaults. Instead it adopts the shared defaults object as its own `options` and overwrites keys of that object in place. As a result:
- every validator shares one options object;
- an override supplied to one construction stays in effect for every later construction that does not supply that key (`OverridePersists`, `ConstructTwice`).

validator.js:3 makes `this.options` the prototype's `defaults` object itself, so the loop at validator.js:4-5 mutates that shared object; the comment at validator.js:9-10 says the defaults can be changed globally. The model follows this: the options are never copied.

## Model

| member | source | states |
|---|---|---|
| `Configuration.Apply` | validator.js:4-5 | writing one option key gives that key the supplied value outright and leaves every other key unchanged |
| `Configuration.OverlayKeepsUnsupplied` | validator.js:3-6 | a key that the caller's options do not mention keeps its current value |
| `Configuration.OverlayTakesSupplied` | validator.js:3-6 | a key the caller supplies ends up holding the last supplied value outright; in particular a supplied `rules` map replaces the old one instead of being merged with it |
| `Configuration.OverlayAppend` | validator.js:3-6 | overlaying one settings list and then another equals overlaying their concatenation, which is what two constructions on the shared defaults do |
| `Configuration.OverridePersists` | validator.js:3-6 | an override from an earlier construction survives a later construction that does not supply that key |
| `Configuration.Defaults` | validator.js:11-17 | the shipped options: no-op callbacks and no rule for any key (that its `getFieldKey` is the identity is stated by `UnconfiguredValidatesEverything`) |
| `Configuration.Overlay` | validator.js:3-6 | the copy loop over the caller's options: the last supplied setting is what its key holds afterwards |
| `Configuration.Options.Shipped` | validator.js:11-17 | the shipped defaults are no-op `addError`/`removeError`/`onErrors`, an empty rule map and the identity `getFieldKey` |
| `Validator.FormValidator.constructor` | validator.js:1-7 | the validator's options are the shared defaults object itself, and that object now holds the old defaults overlaid with the caller's settings in order; the trace starts empty |
| `Validator.ConstructTwice` | validator.js:1-7 | two constructions share one options object, and it ends as the original defaults overlaid with both override lists in turn |
| `Validator.RunValidation` | validator.js:69-79 | the rule is looked up under `getFieldKey(field)`, not under the raw field; it is called with the raw field and the event; when there is no rule the field passes |
| `Validator.RunValidationUsesKey` | validator.js:70-75 | the outcome depends only on the derived key and the rule stored under it |
| `Validator.FieldNotice` | validator.js:44-57 | each field gets one per-field notice about that field; it is never `onErrors`, and it is `removeError` exactly when the rule passes |
| `Validator.FieldTrace` | validator.js:19-38 | the notices of `validateField`: first the same per-field notice `validateFields` makes; a second notice, an `onErrors` with the same event, exactly when the rule throws |
| `Validator.FieldNotices` | validator.js:43-58 | the per-field notices of `validateFields`: one per input field |
| `Validator.Failures` | validator.js:41-57 | the `errors` array: at most one record per input field, each about an input field |
| `Validator.FieldsTrace` | validator.js:43-66 | the notices of `validateFields`: the per-field notices, plus one more exactly when some field failed |
| `Validator.ClearNotices` | validator.js:85-89 | the notices of `clearErrors`: one `removeError` through the configured callback per field |
| `Validator.FormValidator.ValidateField` | validator.js:19-39 | returns true iff the rule does not throw; appends exactly the notices of `FieldTrace` and leaves the options object unchanged |
| `Validator.FieldTraceCases` | validator.js:19-38 | with no rule for the key, the only notice is `removeError(field)`; when the rule throws `m`, the notices are `addError(field, m)` then `onErrors([{field, m}], event)` with the same event; `removeError` appears iff the rule passed |
| `Validator.FormValidator.ValidateFields` | validator.js:40-67 | returns true iff no field failed; appends exactly the notices of `FieldsTrace` (per-field notices in input order, then `onErrors` with all failures if any) |
| `Validator.FieldNoticesAt` | validator.js:43-58 | there is exactly one per-field notice per input field, and notice i belongs to field i, so one failure does not stop the rest |
| `Validator.FailuresAppend` | validator.js:41-57 | the error list of a concatenation is the error list of each part, in input order |
| `Validator.FailuresMember` | validator.js:48-57 | a record `{field, message}` is in the error list iff some input field is that field and its rule throws that message |
| `Validator.FailuresEmptyIff` | validator.js:43-66 | the error list is empty iff every field's rule passes |
| `Validator.FieldsTraceShape` | validator.js:43-66 | the first n notices, for n input fields, are the per-field ones, in order; `onErrors` appears at most once, only when some field failed, as the last notice, carrying the whole error list and the event |
| `Validator.SingleFieldAgrees` | validator.js:19-67 | `validateFields` on a one-field list makes the same notices, and gives the same verdict, as `validateField` |
| `Validator.MiddleFieldFails` | validator.js:40-66 | for three fields of which only the middle one throws `m`: `removeError`, `addError(f2, m)`, `removeError`, then one `onErrors([{f2, m}])` |
| `Validator.FormValidator.ClearError` | validator.js:81-83 | appends exactly one `removeError(field)` and runs no rule |
| `Validator.FormValidator.ClearErrors` | validator.js:85-89 | appends exactly the notices of `ClearNotices` and runs no rule |
| `Validator.ClearNoticesAt` | validator.js:85-89 | one `removeError` per field, in input order, and nothing else |
| `Validator.SingleClearAgrees` | validator.js:81-89 | `clearErrors` on a one-field list notifies exactly as `clearError` does |
| `Validator.NoRulesValidatesAsClear` | validator.js:43-47 | when no field has a rule under its key, `validateFields` makes no failures and the same notices as `clearErrors` |
| `Validator.UnconfiguredValidatesEverything` | validator.js:11-17 | with the shipped defaults, keys are the fields themselves, every field passes, and validating notifies like clearing |

## Left out

- Exceptions thrown by the callbacks are not modelled. The callbacks are treated as calls that never fail. In the source, a `removeError` that throws inside the `try` (validator.js:22, 46) is caught and reported through `addError` as if the rule had failed.
- An exception thrown by `getFieldKey` is not modelled. It is inside the same `try`, so the source also reports it as a failure. Here `getFieldKey` is a total, pure function.
- The exception machinery itself is not modelled. A rule's failure is an explicit `Option` value. The source cannot tell a programming error inside a rule from an intended failure, and in the model both are simply `Some(m)`.
- The bodies of caller-supplied rules and callbacks, and the UI `event` object, are not modelled. They are foreign code, so they stay opaque type parameters and handles.
- Some JavaScript quirks are not modelled. The fields and the caller's options are sequences, so the model does not cover:
  - iterating a non-array object with `for…in`;
  - holes in sparse arrays;
  - inherited enumerable properties.
- Only the five documented option keys are modelled. The source's `for…in` copy would also copy any other key the caller supplies into the shared defaults.
- A value of the wrong type for an option is not modelled. In the source, a non-function callback fails only when it is called.
- `typeof … !== 'undefined'` is not modelled. In the source a key present with the value `undefined` counts as having no rule, but a Dafny `map` has no such entries.
- JavaScript property lookup in `this.options.rules[key]` (validator.js:74-75) is not modelled; the model looks keys up by Dafny equality. In the source the key is first converted to a property name, so `1` and `"1"` share one rule, and so do any two plain objects (both become `"[object Object]"`), which matters with the shipped identity `getFieldKey` when fields are objects. The lookup also finds members inherited from `Object.prototype`: a field keyed `"toString"` runs `Object.prototype.toString` and passes, and a field keyed `"__proto__"` finds an object that is not callable, whose call throws a TypeError that the `catch` reports as a failure.
- Sharing of option values by reference (validator.js:5) is not modelled. The source stores the caller's own `rules` object, so a caller who mutates it after construction changes what later validations run; a `SetRules` value in the model is a snapshot taken at construction.
- How many times `getFieldKey` is called per field is not modelled. In the model it is a pure function, so the number of calls cannot be observed.
