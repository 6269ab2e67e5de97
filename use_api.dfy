/** The request hook of src/hooks/useApi.ts: three state cells (`loading`,
    `error`, `success`) that `execute` drives around one backend call, and
    `clearMessages`. */
module UseApi {
  import opened Wrappers
  import opened Text

  /** The hook's options; an absent `showSuccessMessage` is false. */
  datatype Options = Options(showSuccessMessage: bool, successMessage: Option<string>)

  /** The three state cells; `None` is `null`. */
  datatype Cells = Cells(loading: bool, error: Option<string>, success: Option<string>)

  const Initial := Cells(false, None, None)

  const DefaultSuccess := "Operación realizada con éxito"
  const DefaultError := "Ha ocurrido un error inesperado"

  /** How the awaited call ends: with a value, by throwing an error whose
      `message` may be absent or empty, or by rejecting with `null` or
      `undefined`, so that reading `err.message` in the `catch` throws too. */
  datatype CallOutcome<T> = Resolved(value: T) | Rejected(message: Option<string>) | RejectedNullish

  /** How `execute` itself settles: with the call's value, with `null`, or by
      rejecting (after its `finally`). */
  datatype Settlement<T> = ReturnsValue(value: T) | ReturnsNull | Rejects

  /** The cells when the call is invoked: loading, no message. */
  function Invoked(c: Cells): (r: Cells)
    ensures r.loading && r.error.None? && r.success.None?
  {
    Cells(true, None, None)
  }

  /** The cells once the call has settled, starting from `Invoked`. */
  function Settled<T>(c: Cells, options: Options, outcome: CallOutcome<T>): (r: Cells)
    ensures !r.loading
    ensures outcome.Resolved? ==> r.error == c.error
    ensures outcome.Resolved? ==>
              r.success == (if options.showSuccessMessage
                            then Some(if Truthy(options.successMessage) then options.successMessage.value else DefaultSuccess)
                            else c.success)
    ensures outcome.Rejected? ==> r.success == c.success
    ensures outcome.Rejected? ==>
              r.error == Some(if Truthy(outcome.message) then outcome.message.value else DefaultError)
    ensures outcome.RejectedNullish? ==> r == c.(loading := false)
  {
    match outcome
    case Resolved(_) =>
      if options.showSuccessMessage then
        c.(success := Some(if Truthy(options.successMessage) then options.successMessage.value else DefaultSuccess),
           loading := false)
      else c.(loading := false)
    case Rejected(m) =>
      c.(error := Some(if Truthy(m) then m.value else DefaultError), loading := false)
    case RejectedNullish =>
      c.(loading := false)
  }

  /** How `execute` settles: the call's value, `null` when the call threw an
      error, and a rejection when the `catch` block itself throws. */
  function ExecuteResult<T>(outcome: CallOutcome<T>): (r: Settlement<T>)
    ensures r.ReturnsValue? <==> outcome.Resolved?
    ensures r.ReturnsValue? ==> r.value == outcome.value
    ensures r.ReturnsNull? <==> outcome.Rejected?
  {
    match outcome
    case Resolved(v) => ReturnsValue(v)
    case Rejected(_) => ReturnsNull
    case RejectedNullish => Rejects
  }

  /** `execute` as a whole, from any cells: the cells afterwards depend only
      on the options and on how the call ended. */
  function ExecuteStep<T>(c: Cells, options: Options, outcome: CallOutcome<T>): (r: Cells)
    ensures r == Settled(Invoked(Initial), options, outcome)
  {
    Settled(Invoked(c), options, outcome)
  }

  /** `clearMessages`. */
  function ClearStep(c: Cells): (r: Cells)
    ensures r.loading == c.loading && r.error.None? && r.success.None?
  {
    c.(error := None, success := None)
  }

  /** After `execute`, `loading` is false and the two messages are never both
      set; an error means the call threw, a success message that it resolved
      and the option asked for one. */
  lemma ExecuteSettles<T>(c: Cells, options: Options, outcome: CallOutcome<T>)
    ensures var r := ExecuteStep(c, options, outcome);
            && !r.loading
            && !(r.error.Some? && r.success.Some?)
            && (r.error.Some? <==> outcome.Rejected?)
            && (r.success.Some? <==> outcome.Resolved? && options.showSuccessMessage)
  {
  }

  /** A call rejected with `null` or `undefined` leaves no message at all:
      `execute` rejects in turn, with `loading` cleared by `finally`. */
  lemma NullishRejectionShowsNothing<T>(c: Cells, options: Options)
    ensures ExecuteStep(c, options, CallOutcome<T>.RejectedNullish) == Initial
    ensures ExecuteResult(CallOutcome<T>.RejectedNullish).Rejects?
  {
  }

  /** The messages shown never depend on what was shown before the call. */
  lemma ExecuteForgetsPreviousMessages<T>(c1: Cells, c2: Cells, options: Options, outcome: CallOutcome<T>)
    ensures ExecuteStep(c1, options, outcome) == ExecuteStep(c2, options, outcome)
  {
  }

  /** A thrown error with an empty message shows the default text; a success
      message option that is empty shows the default success text. */
  lemma DefaultTexts<T>(c: Cells, v: T)
    ensures ExecuteStep(c, Options(false, None), CallOutcome<T>.Rejected(Some(""))).error == Some(DefaultError)
    ensures ExecuteStep(c, Options(true, Some("")), Resolved(v)).success == Some(DefaultSuccess)
  {
  }

  /** Clearing twice is clearing once, and clearing after `execute` leaves
      exactly the initial cells. */
  lemma ClearIdempotent<T>(c: Cells, options: Options, outcome: CallOutcome<T>)
    ensures ClearStep(ClearStep(c)) == ClearStep(c)
    ensures ClearStep(ExecuteStep(c, options, outcome)) == Initial
  {
  }

  /** The hook's cells, updated in place. */
  class ApiState {
    var loading: bool
    var error: Option<string>
    var success: Option<string>
    const options: Options

    constructor (options: Options)
      ensures this.options == options
      ensures State() == Initial
    {
      this.options := options;
      loading, error, success := false, None, None;
    }

    function State(): Cells
      reads this
    {
      Cells(loading, error, success)
    }

    /** The first three statements of `execute`, before the call is invoked. */
    method Begin()
      modifies this
      ensures State() == Invoked(old(State()))
    {
      loading := true;
      error := None;
      success := None;
    }

    /** The rest of `execute` once the call has settled, through `finally`. */
    method Finish<T>(outcome: CallOutcome<T>) returns (result: Settlement<T>)
      modifies this
      ensures result == ExecuteResult(outcome)
      ensures State() == Settled(old(State()), options, outcome)
    {
      match outcome {
        case Resolved(v) =>
          if options.showSuccessMessage {
            success := Some(if options.successMessage.Some? && options.successMessage.value != ""
                            then options.successMessage.value else DefaultSuccess);
          }
          result := ReturnsValue(v);
        case Rejected(m) =>
          error := Some(if m.Some? && m.value != "" then m.value else DefaultError);
          result := ReturnsNull;
        case RejectedNullish =>
          result := Rejects;
      }
      loading := false;
    }

    /** `execute(apiCall)`, where `outcome` is how the call ends. */
    method Execute<T>(outcome: CallOutcome<T>) returns (result: Settlement<T>)
      modifies this
      ensures result == ExecuteResult(outcome)
      ensures State() == ExecuteStep(old(State()), options, outcome)
    {
      Begin();
      result := Finish(outcome);
    }

    /** `clearMessages`. */
    method ClearMessages()
      modifies this
      ensures State() == ClearStep(old(State()))
    {
      error := None;
      success := None;
    }
  }
}
