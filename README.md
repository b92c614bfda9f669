# Form state helper, modelled in Dafny

This project models the `Form` class of `src/Form.js`. The class is a client-side helper
that holds one form's state:

- the field names it was constructed with (`originalFields`);
- the current value of each field, stored as an own property of the form;
- three status flags, `submitting`, `submitted` and `succeeded`;
- a `clearOnSubmit` flag;
- an owned error bag that maps a field name to its messages.

The form is driven by these methods:

- `get`, `set` and `has` give guarded field access;
- `reset` blanks every field;
- `data` snapshots the declared fields;
- a small status machine is driven by `startProcessing`, `finishProcessing`,
  `finishProcessingOnErrors`, `onSuccess`, `onFail` and `setErrors`;
- `submit` hands `data()` to an HTTP client and then handles the outcome.

Two modules, one per layer:

- `FormState` (form_state.dfy) holds the specification. The abstract state of a form is a
  `State` record. There is one pure transition function per method, and `Run` applies an
  arbitrary sequence of method calls. The lemmas state what the form promises, both for
  single calls and for every sequence of calls.
- `Forms` (form.dfy) holds the class `Form`, which keeps the source's fields and updates them
  in place. The constructor and `Reset` write fields one name at a time, and `Data` builds
  its result one name at a time, as the source's `for...in` loops do. Every method is proved
  against its `FormState` transition (`State() == FormState.X(old(State()))`). Every method
  also keeps the class invariant `Valid()`, which says:
  - the own fields are exactly the declared names;
  - `submitted` is false;
  - the form is never both `submitting` and `succeeded`.

Modelling choices:

- A field value is a `Value`: a string, an integer, a boolean or null.
- `undefined`, the result of `get` on a name that is not a field, is `None`.
- The error bag is modelled as its contents, a `map<string, seq<string>>`. Its `forget` and
  `clear` empty the map; its `record` and `set` replace the whole map.
- `has` checks for an own property, so it is modelled as membership in the map of field
  values. `data` iterates the declared names. The invariant `values.Keys == declared` is what
  makes the two agree.
- `submit` is modelled by its effect on the form. The verb, the URL and the transport's
  outcome are parameters. The method returns the request it hands to the transport.

Two facts about the code shape the model:

- `reset` changes no status flag (src/Form.js:63-71), so it does not return the form to an
  idle state.
- The `clearOnSubmit` method (src/Form.js:77-79) cannot be called, because the constructor
  gives the form an own property of the same name (src/Form.js:12). In the source the flag is
  raised by assigning the property directly or by `set('clearOnSubmit', true)`, since `has`
  accepts it. Here it is a public `var` that callers assign; `set` on that name is not
  modelled (see "## Left out").

## Model

| member | source | states |
|---|---|---|
| Forms.Form.constructor | src/Form.js:11-23 | Copies each initial field onto the form one name at a time. The new form is valid, its state is `Init(fields)`: all flags down, `clearOnSubmit` false, empty error bag, values equal to the initial fields. |
| Forms.Form.Get | src/Form.js:31-35 | Yields a value exactly for the declared names, and that value is the field's current value; any other name yields `undefined`. |
| Forms.Form.Set | src/Form.js:43-47 | Writes a declared field and ignores every other name; afterwards `Get(field)` is the written value for a declared field and `undefined` otherwise, and the invariant still holds. |
| Forms.Form.Has | src/Form.js:55-57 | The own-property check is true exactly for the declared names, given the class invariant. |
| Forms.Form.Reset | src/Form.js:63-71 | Through its loop, every declared field becomes `''` and the error bag is emptied; `submitting`, `submitted` and `succeeded` are unchanged. |
| Forms.Form.ResetStatus | src/Form.js:85-90 | Empties the error bag and lowers all three flags; the field values are unchanged; a valid form stays valid. |
| Forms.Form.Data | src/Form.js:97-105 | Through its loop, the result has exactly the declared names as keys, and each maps to that field's current value; nothing is modified. |
| Forms.Form.StartProcessing | src/Form.js:111-115 | Empties the bag, raises `submitting`, lowers `succeeded`; field values and `submitted` are unchanged. |
| Forms.Form.FinishProcessing | src/Form.js:121-125 | Lowers `submitting` and `submitted`, raises `succeeded`; fields and bag are unchanged. |
| Forms.Form.FinishProcessingOnErrors | src/Form.js:130-134 | Lowers all three flags; fields and bag are unchanged. |
| Forms.Form.Submit | src/Form.js:183-196 | The request handed to the transport carries the verb, the URL and `data()` as it was before the call; the final state is that of start-processing followed by `onSuccess` or `onFail(body)`, chosen by the outcome. |
| Forms.Form.OnSuccess | src/Form.js:201-204 | Leaves the form succeeded and not submitting; the fields and bag are unchanged when `clearOnSubmit` is false; every field is `''` and the bag is empty when it is true. |
| Forms.Form.OnFail | src/Form.js:211-214 | The bag becomes the given errors; `submitting` and `succeeded` are lowered; fields are unchanged. |
| Forms.Form.SetErrors | src/Form.js:221-224 | The bag becomes the given errors and `submitting` is lowered; `succeeded` and the fields are unchanged. |
| FormState.InitState | src/Form.js:11-23 | A new form satisfies the invariant; its `data()` is exactly the initial field map; its own fields are exactly the initial names; all flags are down and the bag is empty. |
| FormState.HasIffDeclared | src/Form.js:55-57 | Under the invariant, `has` and a defined `get` both hold exactly for the declared names. |
| FormState.SetThenGet | src/Form.js:31-47 | `get(f)` after `set(f, v)` is `v` for a declared `f`; for any other `f`, `set` leaves the state unchanged and `get` is `undefined`; no other field and nothing besides the values changes. |
| FormState.ResetBlanks | src/Form.js:63-71 | `reset` keeps the invariant, `data()` afterwards maps every declared name to `''`, the bag is empty, and nothing else (flags, declared names) changes. |
| FormState.ResetStatusClears | src/Form.js:85-90 | `resetStatus` lowers every flag, empties the bag and leaves the values and `data()` unchanged. |
| FormState.StartProcessingKeepsData | src/Form.js:111-115 | `startProcessing` empties the bag, raises `submitting`, lowers `succeeded`, keeps values and `submitted`; so the body `submit` sends equals `data()` just before the call. |
| FormState.OnSuccessOutcome | src/Form.js:201-204 | `onSuccess` keeps the invariant and leaves the form succeeded and not submitting; values and bag are kept without `clearOnSubmit`; with it, `data()` is all `''` and the bag is empty. |
| FormState.FailAndSetErrors | src/Form.js:211-224 | `onFail(errs)` makes the bag `errs` and lowers `submitting` and `succeeded`; `setErrors(errs)` makes the bag `errs` and lowers only `submitting`; neither touches the values. |
| FormState.SubmitSettles | src/Form.js:183-196 | A settled submission keeps the invariant and is not submitting; on success it has succeeded and the bag is empty, and with `clearOnSubmit` its `data()` is all `''`; on failure it has not succeeded and the bag holds the error body; the values change only on success with `clearOnSubmit`. |
| FormState.ApplyKeepsInv | src/Form.js:85-134 | Every single method call keeps the invariant and the set of declared names. |
| FormState.RunKeepsInv | src/Form.js:85-134 | Every sequence of modelled method calls (with `set` limited to declared names) keeps the invariant and the set of declared names (induction on the sequence). |
| FormState.SubmittedNeverSet | src/Form.js:85-90 | After any sequence of modelled calls on a new form (with `set` limited to declared names), `submitted` is false and the form is not both submitting and succeeded. |
| FormState.DataKeysAfterRun | src/Form.js:97-105 | After any sequence of modelled calls on a new form (with `set` limited to declared names), `data()` has exactly the initial names as keys, each value is what `get` returns for it, and `get` is `undefined` for every other name. |
| FormState.PostScenario | src/Form.js:142-144 | For `new Form({name: '', age: 0})`, `set('name', 'Al')`, `post('/users')`, the transport receives `{name: 'Al', age: 0}`, and a successful response leaves the form succeeded and not submitting. |

## Left out

- The HTTP transport (axios) and the Promise plumbing of `submit` (src/Form.js:183-196) are
  not modelled. They are a foreign asynchronous call. The transport's outcome is a parameter,
  and the response with which the promise resolves or rejects is not tracked.
- The `post`, `put`, `patch` and `delete` wrappers (src/Form.js:142-174) are not modelled
  separately. Each only fixes the verb argument of `submit`; `FormState.PostScenario` shows
  the `post` case.
- The `clearOnSubmit()` method (src/Form.js:77-79) is not modelled. The constructor gives the
  form an own property of the same name (src/Form.js:12), which hides the method, so it cannot
  be called. The flag is a plain boolean that callers may assign.
- `src/Errors.js` is not part of this model. The error bag is modelled as the map it holds,
  with clear and replace. Its queries (`has`, `any`, `get`, `first`) are not modelled.
  Whether `errors.set` at src/Form.js:223 exists on that class is not known; it is modelled
  as replacing the bag, like `record`.
- Forms.Form.Has: models `has` as membership in the declared fields. The source's
  `hasOwnProperty` is also true for the form's internal properties (`errors`, `submitting`,
  `originalFields`, `clearOnSubmit`, ...). It is also true for the stray `fields` property
  that `reset` creates (src/Form.js:64), which is not modelled either. As a result, `get`
  and `set` on those names are not modelled.
- FormState.SubmittedNeverSet: this lemma, FormState.RunKeepsInv and FormState.DataKeysAfterRun
  hold for the modelled `has`, which accepts only declared field names. In the source,
  `set` also writes the form's internal properties, and four such calls break these
  invariants: `set('submitted', true)` raises `submitted`; `set('submitting', true)` after
  a success leaves the form both submitting and succeeded; `set('originalFields', {x: 1})`
  changes the keys of `data()`; `set('clearOnSubmit', true)` raises the flag.
- Field names that clash with the form's internal properties or methods are not modelled.
  The model keeps field values apart from the form's own state.
- The failure of `onFail` when the transport error has no `response` (src/Form.js:192) is
  not modelled. There, a runtime error is raised before `onFail` runs. Every `Failed`
  outcome here carries an error body.
- Overlapping `submit` calls on one instance, and calls made while a submission is in
  flight, are not modelled. The model settles each submission immediately.
- `originalFields` is held by reference to the caller's object; later changes the caller
  makes to that object are not modelled. The form keeps the initial names as a constant set.
- Field values are a small closed type (string, integer, boolean, null). Floating-point
  numbers, objects and arrays stored in fields are not modelled.
