/**
 * The `Form` class of src/Form.js: a form's field values, its submission
 * status flags and its error bag, updated in place by its methods. Each
 * method is proved against the matching transition of module FormState.
 */
module Forms {
  import opened FormState

  class Form {
    /** The names of the fields the form was constructed with (`originalFields`). */
    const declared: set<string>
    /** The current value of each own field of the form. */
    var values: map<string, Value>
    var submitting: bool
    var submitted: bool
    var succeeded: bool
    /** Whether a successful submission resets the form; callers may assign it. */
    var clearOnSubmit: bool
    /** The contents of the form's own error bag. */
    var errors: ErrorBag

    /** The form's abstract state. */
    function State(): FormState.State
      reads this
    {
      FormState.State(declared, values, submitting, submitted, succeeded, clearOnSubmit, errors)
    }

    ghost predicate Valid()
      reads this
    {
      Inv(State())
    }

    /** Flags down, empty bag, then one own field per key of `fields`, copied one by one. */
    constructor (fields: map<string, Value>)
      ensures Valid()
      ensures State() == Init(fields)
    {
      clearOnSubmit := false;
      declared := fields.Keys;
      errors := map[];
      values := map[];
      new;
      ResetStatus();
      var rest := fields.Keys;
      while rest != {}
        invariant rest <= fields.Keys
        invariant values.Keys == fields.Keys - rest
        invariant forall f :: f in values ==> values[f] == fields[f]
        invariant !submitting && !submitted && !succeeded && !clearOnSubmit && errors == map[]
        decreases rest
      {
        var f :| f in rest;
        values := values[f := fields[f]];
        rest := rest - {f};
      }
    }

    /** `get(field)`: the value of a declared field, `undefined` for any other name. */
    function Get(field: string): (r: Option<Value>)
      requires Valid()
      reads this
      ensures r.Some? <==> field in declared
      ensures r.Some? ==> r.value == values[field]
      ensures r == FormState.Get(State(), field)
    {
      if Has(field) then Some(values[field]) else None
    }

    /** `set(field, value)`: writes a declared field and ignores any other name. */
    method Set(field: string, value: Value)
      requires Valid()
      modifies this
      ensures Valid()
      ensures State() == FormState.Set(old(State()), field, value)
      ensures Get(field) == if field in declared then Some(value) else None
    {
      if Has(field) {
        values := values[field := value];
      }
    }

    /** `has(field)`: whether `field` is an own field; under the invariant, a declared name. */
    function Has(field: string): (r: bool)
      requires Valid()
      reads this
      ensures r <==> field in declared
      ensures r == FormState.Has(State(), field)
    {
      field in values
    }

    /** `reset()`: writes the empty string to every declared field, then clears the bag. */
    method Reset()
      requires Valid()
      modifies this
      ensures Valid()
      ensures State() == FormState.Reset(old(State()))
      ensures values == Blank(declared) && errors == map[]
      ensures submitting == old(submitting) && succeeded == old(succeeded)
    {
      var rest := declared;
      while rest != {}
        invariant rest <= declared
        invariant values == old(values) + Blank(declared - rest)
        invariant submitting == old(submitting) && submitted == old(submitted)
        invariant succeeded == old(succeeded) && clearOnSubmit == old(clearOnSubmit)
        invariant errors == old(errors)
        decreases rest
      {
        var f :| f in rest;
        values := values[f := Str("")];
        rest := rest - {f};
      }
      errors := map[];
    }

    /** `resetStatus()`: empties the bag and lowers every flag; fields are untouched. */
    method ResetStatus()
      modifies this
      ensures old(Valid()) ==> Valid()
      ensures State() == FormState.ResetStatus(old(State()))
      ensures !submitting && !submitted && !succeeded && errors == map[]
      ensures values == old(values)
    {
      errors := map[];
      submitting := false;
      submitted := false;
      succeeded := false;
    }

    /** `data()`: a fresh map from each declared name to that field's current value. */
    method Data() returns (d: map<string, Value>)
      requires Valid()
      ensures d.Keys == declared
      ensures forall f :: f in d ==> d[f] == values[f]
      ensures d == FormState.Data(State())
    {
      d := map[];
      var rest := declared;
      while rest != {}
        invariant rest <= declared
        invariant d.Keys == declared - rest
        invariant forall f :: f in d ==> d[f] == values[f]
        decreases rest
      {
        var f :| f in rest;
        d := d[f := values[f]];
        rest := rest - {f};
      }
    }

    /** `startProcessing()`: empties the bag, raises `submitting`, lowers `succeeded`. */
    method StartProcessing()
      requires Valid()
      modifies this
      ensures Valid()
      ensures State() == FormState.StartProcessing(old(State()))
      ensures errors == map[] && submitting && !succeeded
      ensures values == old(values) && submitted == old(submitted)
    {
      errors := map[];
      submitting := true;
      succeeded := false;
    }

    /** `finishProcessing()`: the form has succeeded. */
    method FinishProcessing()
      requires Valid()
      modifies this
      ensures Valid()
      ensures State() == FormState.FinishProcessing(old(State()))
      ensures !submitting && !submitted && succeeded
      ensures values == old(values) && errors == old(errors)
    {
      submitting := false;
      submitted := false;
      succeeded := true;
    }

    /** `finishProcessingOnErrors()`: the form has failed. */
    method FinishProcessingOnErrors()
      requires Valid()
      modifies this
      ensures Valid()
      ensures State() == FormState.FinishProcessingOnErrors(old(State()))
      ensures !submitting && !submitted && !succeeded
      ensures values == old(values) && errors == old(errors)
    {
      submitting := false;
      submitted := false;
      succeeded := false;
    }

    /** `onSuccess()`: finish processing, then reset the form when `clearOnSubmit` is set. */
    method OnSuccess()
      requires Valid()
      modifies this
      ensures Valid()
      ensures State() == FormState.OnSuccess(old(State()))
      ensures succeeded && !submitting
      ensures !clearOnSubmit ==> values == old(values) && errors == old(errors)
      ensures clearOnSubmit ==> values == Blank(declared) && errors == map[]
    {
      FinishProcessing();
      if clearOnSubmit {
        Reset();
      }
    }

    /** `onFail(errs)`: record `errs` in the bag, then finish processing on errors. */
    method OnFail(errs: ErrorBag)
      requires Valid()
      modifies this
      ensures Valid()
      ensures State() == FormState.OnFail(old(State()), errs)
      ensures errors == errs && !submitting && !succeeded
      ensures values == old(values)
    {
      errors := errs;
      FinishProcessingOnErrors();
    }

    /** `setErrors(errs)`: lower `submitting` and replace the bag with `errs`. */
    method SetErrors(errs: ErrorBag)
      requires Valid()
      modifies this
      ensures Valid()
      ensures State() == FormState.SetErrors(old(State()), errs)
      ensures errors == errs && !submitting
      ensures succeeded == old(succeeded) && values == old(values)
    {
      submitting := false;
      errors := errs;
    }

    /**
     * `submit(verb, url)`, as its effect on the form: start processing, hand
     * `data()` to the transport, then handle the transport's `outcome`.
     */
    method Submit(verb: Verb, url: string, outcome: Outcome) returns (req: Request)
      requires Valid()
      modifies this
      ensures Valid()
      ensures req == SubmitRequest(old(State()), verb, url)
      ensures req.body == FormState.Data(old(State()))
      ensures State() == SubmitSettled(old(State()), outcome)
    {
      StartProcessing();
      var body := Data();
      req := Request(verb, url, body);
      match outcome
      case Succeeded => OnSuccess();
      case Failed(errorBody) => OnFail(errorBody);
    }
  }
}
