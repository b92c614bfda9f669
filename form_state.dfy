/**
 * The abstract state of a `Form` (src/Form.js) and one pure transition per
 * method of the class. The class in form.dfy is proved against these
 * functions; the lemmas below state what the form promises about them,
 * both for single calls and for arbitrary sequences of calls.
 */
module FormState {

  /** A field value. JavaScript lets a field hold anything; `reset` writes the empty string. */
  datatype Value = Str(s: string) | Num(n: int) | Bool(b: bool) | Null

  /** `None` is JavaScript's `undefined`, which `get` yields for a name that is not a field. */
  datatype Option<T> = None | Some(value: T)

  /** The contents of the form's error bag: field name to its messages, in order. */
  type ErrorBag = map<string, seq<string>>

  /** The verbs the `post`, `put`, `patch` and `delete` wrappers pass to `submit`. */
  datatype Verb = Post | Put | Patch | Delete

  /** What `submit` hands to the transport: the verb, the URL and the `data()` snapshot. */
  datatype Request = Request(verb: Verb, url: string, body: map<string, Value>)

  /** How the transport settles: successfully, or with an error whose response carries an error body. */
  datatype Outcome = Succeeded | Failed(errorBody: ErrorBag)

  /**
   * Everything a `Form` instance holds: the names it was constructed with
   * (`originalFields`), the current value of each own field, the three status
   * flags, the `clearOnSubmit` flag and the contents of its error bag.
   */
  datatype State = State(
    declared: set<string>,
    values: map<string, Value>,
    submitting: bool,
    submitted: bool,
    succeeded: bool,
    clearOnSubmit: bool,
    errors: ErrorBag)

  /**
   * The invariant every method keeps: the own fields are exactly the declared
   * names, `submitted` is never set, and the form is never both submitting and
   * succeeded.
   */
  predicate Inv(s: State)
  {
    && s.values.Keys == s.declared
    && !s.submitted
    && !(s.submitting && s.succeeded)
  }

  /** The empty string for every name in `names`. */
  function Blank(names: set<string>): map<string, Value>
  {
    map f | f in names :: Str("")
  }

  // ---------------------------------------------------------------------------
  // One transition per method of the class
  // ---------------------------------------------------------------------------

  /** `new Form(fields)`: flags down, empty bag, one own field per key of `fields`. */
  function Init(fields: map<string, Value>): State
  {
    State(fields.Keys, fields, false, false, false, false, map[])
  }

  /** `has(field)`: whether `field` is an own field of the form. */
  function Has(s: State, field: string): bool
  {
    field in s.values
  }

  /** `get(field)`: the field's value, or `undefined` when it is not a field. */
  function Get(s: State, field: string): Option<Value>
  {
    if Has(s, field) then Some(s.values[field]) else None
  }

  /** `set(field, value)`: writes only an existing field. */
  function Set(s: State, field: string, value: Value): State
  {
    if Has(s, field) then s.(values := s.values[field := value]) else s
  }

  /** `reset()`: every declared name gets the empty string, the bag is cleared. */
  function Reset(s: State): State
  {
    s.(values := s.values + Blank(s.declared), errors := map[])
  }

  /** `resetStatus()`: clears the bag and lowers all three flags. */
  function ResetStatus(s: State): State
  {
    s.(errors := map[], submitting := false, submitted := false, succeeded := false)
  }

  /** `data()`: the current value of each declared name. */
  function Data(s: State): map<string, Value>
  {
    map f | f in s.declared && f in s.values :: s.values[f]
  }

  /** `startProcessing()`. */
  function StartProcessing(s: State): State
  {
    s.(errors := map[], submitting := true, succeeded := false)
  }

  /** `finishProcessing()`. */
  function FinishProcessing(s: State): State
  {
    s.(submitting := false, submitted := false, succeeded := true)
  }

  /** `finishProcessingOnErrors()`. */
  function FinishProcessingOnErrors(s: State): State
  {
    s.(submitting := false, submitted := false, succeeded := false)
  }

  /** `onSuccess()`: finish, then reset when `clearOnSubmit` is set. */
  function OnSuccess(s: State): State
  {
    var t := FinishProcessing(s);
    if t.clearOnSubmit then Reset(t) else t
  }

  /** `onFail(errors)`: record the errors, then finish on errors. */
  function OnFail(s: State, errs: ErrorBag): State
  {
    FinishProcessingOnErrors(s.(errors := errs))
  }

  /** `setErrors(errors)`: lower `submitting` and replace the bag. */
  function SetErrors(s: State, errs: ErrorBag): State
  {
    s.(submitting := false, errors := errs)
  }

  /** The request `submit` sends: built from `data()` after `startProcessing()`. */
  function SubmitRequest(s: State, verb: Verb, url: string): Request
  {
    Request(verb, url, Data(StartProcessing(s)))
  }

  /** The state once the transport has settled with `outcome`. */
  function SubmitSettled(s: State, outcome: Outcome): State
  {
    var t := StartProcessing(s);
    match outcome
    case Succeeded => OnSuccess(t)
    case Failed(body) => OnFail(t, body)
  }

  // ---------------------------------------------------------------------------
  // Arbitrary sequences of calls
  // ---------------------------------------------------------------------------

  /** A call of one of the form's methods. */
  datatype Op =
    | SetOp(field: string, value: Value)
    | ResetOp
    | ResetStatusOp
    | StartProcessingOp
    | FinishProcessingOp
    | FinishProcessingOnErrorsOp
    | OnSuccessOp
    | OnFailOp(errs: ErrorBag)
    | SetErrorsOp(errs: ErrorBag)
    | SubmitOp(outcome: Outcome)

  function Apply(s: State, op: Op): State
  {
    match op
    case SetOp(f, v) => Set(s, f, v)
    case ResetOp => Reset(s)
    case ResetStatusOp => ResetStatus(s)
    case StartProcessingOp => StartProcessing(s)
    case FinishProcessingOp => FinishProcessing(s)
    case FinishProcessingOnErrorsOp => FinishProcessingOnErrors(s)
    case OnSuccessOp => OnSuccess(s)
    case OnFailOp(errs) => OnFail(s, errs)
    case SetErrorsOp(errs) => SetErrors(s, errs)
    case SubmitOp(outcome) => SubmitSettled(s, outcome)
  }

  /** The state after the calls `ops`, in order, starting from `s`. */
  function Run(s: State, ops: seq<Op>): State
    decreases |ops|
  {
    if ops == [] then s else Run(Apply(s, ops[0]), ops[1..])
  }

  // ---------------------------------------------------------------------------
  // Properties
  // ---------------------------------------------------------------------------

  /** A new form holds exactly its initial fields, all flags are down and the bag is empty. */
  lemma InitState(fields: map<string, Value>)
    ensures Inv(Init(fields))
    ensures Data(Init(fields)) == fields
    ensures forall f :: Has(Init(fields), f) <==> f in fields
    ensures var s := Init(fields);
      !s.submitting && !s.submitted && !s.succeeded && !s.clearOnSubmit && s.errors == map[]
  {
  }

  /** Under the invariant, a name is an own field exactly when it was declared. */
  lemma HasIffDeclared(s: State, field: string)
    requires Inv(s)
    ensures Has(s, field) <==> field in s.declared
    ensures Get(s, field).Some? <==> field in s.declared
  {
  }

  /**
   * `set(f, v)` then `get(f)` yields `v` when `f` is a field; otherwise `set`
   * changes nothing and `get` yields `undefined`. No other field changes.
   */
  lemma SetThenGet(s: State, field: string, value: Value)
    requires Inv(s)
    ensures field in s.declared ==> Get(Set(s, field, value), field) == Some(value)
    ensures field !in s.declared ==> Set(s, field, value) == s && Get(s, field) == None
    ensures forall g :: g != field ==> Get(Set(s, field, value), g) == Get(s, g)
    ensures Set(s, field, value).(values := s.values) == s
  {
  }

  /**
   * `reset()` blanks every declared field and empties the bag; the status
   * flags and the set of fields are untouched.
   */
  lemma ResetBlanks(s: State)
    requires Inv(s)
    ensures Inv(Reset(s))
    ensures Data(Reset(s)) == Blank(s.declared)
    ensures forall f :: f in s.declared ==> Get(Reset(s), f) == Some(Str(""))
    ensures Reset(s).errors == map[]
    ensures Reset(s).(values := s.values, errors := s.errors) == s
  {
  }

  /** `resetStatus()` lowers every flag and empties the bag, leaving the fields alone. */
  lemma ResetStatusClears(s: State)
    ensures var t := ResetStatus(s);
      !t.submitting && !t.submitted && !t.succeeded && t.errors == map[]
    ensures ResetStatus(s).values == s.values && Data(ResetStatus(s)) == Data(s)
  {
  }

  /**
   * `startProcessing()` empties the bag, raises `submitting`, lowers
   * `succeeded`, and leaves the fields and `submitted` alone: so the body
   * `submit` sends is `data()` as it was just before the call.
   */
  lemma StartProcessingKeepsData(s: State, verb: Verb, url: string)
    ensures var t := StartProcessing(s);
      t.errors == map[] && t.submitting && !t.succeeded
      && t.values == s.values && t.submitted == s.submitted
    ensures SubmitRequest(s, verb, url) == Request(verb, url, Data(s))
  {
  }

  /**
   * `onSuccess()` leaves the form succeeded and not submitting; the fields
   * are untouched unless `clearOnSubmit` is set, in which case every field
   * is blanked and the bag emptied.
   */
  lemma OnSuccessOutcome(s: State)
    requires Inv(s)
    ensures Inv(OnSuccess(s))
    ensures OnSuccess(s).succeeded && !OnSuccess(s).submitting
    ensures !s.clearOnSubmit ==> OnSuccess(s).values == s.values && OnSuccess(s).errors == s.errors
    ensures s.clearOnSubmit ==> Data(OnSuccess(s)) == Blank(s.declared) && OnSuccess(s).errors == map[]
  {
  }

  /**
   * `onFail(errs)` replaces the bag with `errs` and lowers `submitting` and
   * `succeeded`; `setErrors(errs)` replaces the bag and lowers `submitting`
   * only. Neither touches the fields.
   */
  lemma FailAndSetErrors(s: State, errs: ErrorBag)
    ensures var t := OnFail(s, errs);
      t.errors == errs && !t.submitting && !t.succeeded && t.values == s.values
    ensures var t := SetErrors(s, errs);
      t.errors == errs && !t.submitting && t.succeeded == s.succeeded
      && t.submitted == s.submitted && t.values == s.values
  {
  }

  /** A settled `submit`: succeeded on success, otherwise failed with the error body recorded. */
  lemma SubmitSettles(s: State, outcome: Outcome)
    requires Inv(s)
    ensures Inv(SubmitSettled(s, outcome))
    ensures outcome.Succeeded? ==> SubmitSettled(s, outcome).succeeded
    ensures outcome.Succeeded? ==> SubmitSettled(s, outcome).errors == map[]
    ensures outcome.Succeeded? && s.clearOnSubmit ==> Data(SubmitSettled(s, outcome)) == Blank(s.declared)
    ensures outcome.Failed? ==>
              !SubmitSettled(s, outcome).succeeded && SubmitSettled(s, outcome).errors == outcome.errorBody
    ensures !SubmitSettled(s, outcome).submitting
    ensures outcome.Failed? || !s.clearOnSubmit ==> SubmitSettled(s, outcome).values == s.values
  {
  }

  /** Every single call keeps the invariant and the declared names. */
  lemma ApplyKeepsInv(s: State, op: Op)
    requires Inv(s)
    ensures Inv(Apply(s, op)) && Apply(s, op).declared == s.declared
  {
  }

  /** Every sequence of calls keeps the invariant and the declared names. */
  lemma {:induction false} RunKeepsInv(s: State, ops: seq<Op>)
    requires Inv(s)
    ensures Inv(Run(s, ops)) && Run(s, ops).declared == s.declared
    decreases |ops|
  {
    if ops != [] {
      ApplyKeepsInv(s, ops[0]);
      RunKeepsInv(Apply(s, ops[0]), ops[1..]);
    }
  }

  /** `submitted` is false after every sequence of calls on a new form. */
  lemma SubmittedNeverSet(fields: map<string, Value>, ops: seq<Op>)
    ensures !Run(Init(fields), ops).submitted
    ensures var t := Run(Init(fields), ops); !(t.submitting && t.succeeded)
  {
    InitState(fields);
    RunKeepsInv(Init(fields), ops);
  }

  /**
   * Whatever calls came before, `data()` has exactly the names the form was
   * built with as keys, and each value is what `get` returns for that name.
   */
  lemma DataKeysAfterRun(fields: map<string, Value>, ops: seq<Op>)
    ensures var t := Run(Init(fields), ops);
      Data(t).Keys == fields.Keys
      && forall f :: f in fields ==> Get(t, f) == Some(Data(t)[f])
    ensures var t := Run(Init(fields), ops);
      forall f :: f !in fields ==> Get(t, f) == None
  {
    InitState(fields);
    RunKeepsInv(Init(fields), ops);
  }

  /**
   * The scenario `new Form({name: '', age: 0})`, `set('name', 'Al')`,
   * `post('/users')`: the transport receives `{name: 'Al', age: 0}`, and a
   * successful response leaves the form succeeded.
   */
  lemma PostScenario()
    ensures var s := Set(Init(map["name" := Str(""), "age" := Num(0)]), "name", Str("Al"));
      && SubmitRequest(s, Post, "/users") == Request(Post, "/users", map["name" := Str("Al"), "age" := Num(0)])
      && SubmitSettled(s, Succeeded).succeeded
      && !SubmitSettled(s, Succeeded).submitting
  {
  }
}
