/**
 * The `useDemoParser` hook: three state cells `data`, `loading` and `error`,
 * changed by `parseDemo` and `reset`. A load is modelled as one sequential,
 * uninterrupted run of `parseDemo`; the WASM initialisation, reading the
 * file, the parser and `JSON.parse` together become one outcome: a parsed
 * record, or the value they threw.
 */
module Store {
  import opened Wrappers
  import opened DemoTypes

  /** What a failing load throws: an `Error` object with its message, or any other value. */
  datatype Thrown = ErrorObject(message: string) | OtherValue

  /** The result of initialising the parser, reading the file, parsing it and decoding the JSON. */
  datatype Outcome = Parsed(record: DemoData) | Threw(thrown: Thrown)

  /** The file a load is started with; only its name is looked at by the core. */
  datatype File = File(name: string)

  const UnknownError := "Unknown error occurred while parsing demo"

  /** `err instanceof Error ? err.message : 'Unknown error occurred while parsing demo'`. */
  function ErrorText(t: Thrown): (text: string)
    ensures t.ErrorObject? ==> text == t.message
    ensures t.OtherValue? ==> text == UnknownError
  {
    match t
    case ErrorObject(m) => m
    case OtherValue => UnknownError
  }

  /** The three state cells. */
  datatype LoadState = LoadState(data: Option<DemoData>, loading: bool, error: Option<string>)

  /** `useState(null)`, `useState(false)`, `useState(null)`. */
  const Initial := LoadState(None, false, None)

  // The steps of `parseDemo`, in the order it takes them.

  /** `setLoading(true); setError(null)`. */
  function Started(s: LoadState): LoadState {
    s.(loading := true, error := None)
  }

  /** `setData(parsedData)`. */
  function Committed(s: LoadState, record: DemoData): LoadState {
    s.(data := Some(record))
  }

  /** `setError(...)` in the `catch` block. */
  function Reported(s: LoadState, t: Thrown): LoadState {
    s.(error := Some(ErrorText(t)))
  }

  /** `setLoading(false)` in the `finally` block. */
  function Finished(s: LoadState): LoadState {
    s.(loading := false)
  }

  /**
   * One whole `parseDemo` call. A load ends with `loading` false; success
   * replaces the record and leaves no error; failure keeps the previous record
   * and sets the error text.
   */
  function Loaded(s: LoadState, outcome: Outcome): (r: LoadState)
    ensures !r.loading
    ensures outcome.Parsed? ==> r.data == Some(outcome.record) && r.error == None
    ensures outcome.Threw? ==> r.data == s.data && r.error == Some(ErrorText(outcome.thrown))
  {
    var started := Started(s);
    match outcome
    case Parsed(record) => Finished(Committed(started, record))
    case Threw(t) => Finished(Reported(started, t))
  }

  /** `reset`: `setData(null); setError(null); setLoading(false)`. */
  function Cleared(s: LoadState): (r: LoadState)
    ensures r == Initial
  {
    s.(data := None).(error := None).(loading := false)
  }

  /** What happens to the hook, one whole call at a time. */
  datatype Event = Load(outcome: Outcome) | Reset

  function Apply(s: LoadState, e: Event): LoadState {
    match e
    case Load(outcome) => Loaded(s, outcome)
    case Reset => Cleared(s)
  }

  /** The state after the events, from the initial state. */
  function Run(events: seq<Event>): LoadState {
    if events == [] then Initial else Apply(Run(events[..|events| - 1]), events[|events| - 1])
  }

  /** The record the most recent successful load gave, unless a reset came after it. */
  function LastRecord(events: seq<Event>): Option<DemoData> {
    if events == [] then None
    else
      match events[|events| - 1]
      case Reset => None
      case Load(Parsed(record)) => Some(record)
      case Load(Threw(_)) => LastRecord(events[..|events| - 1])
  }

  /** Reset puts every state back to the initial one, so resetting twice is resetting once. */
  lemma ResetClears(s: LoadState)
    ensures Cleared(s) == Initial
    ensures Cleared(Cleared(s)) == Cleared(s)
  {
  }

  /**
   * After any sequence of whole loads and resets: nothing is loading; the
   * record is that of the last successful load not followed by a reset (a
   * failed reload keeps it); and an error is shown exactly when the last event
   * was a failed load, with that failure's text.
   */
  lemma {:induction false} RunState(events: seq<Event>)
    ensures !Run(events).loading
    ensures Run(events).data == LastRecord(events)
    ensures Run(events).error.Some? <==>
      events != [] && events[|events| - 1].Load? && events[|events| - 1].outcome.Threw?
    ensures Run(events).error.Some? ==>
      Run(events).error.value == ErrorText(events[|events| - 1].outcome.thrown)
  {
    if events != [] {
      RunState(events[..|events| - 1]);
    }
  }

  /** A failed reload after a successful one leaves the record, and so its header, as it was. */
  lemma FailedReloadKeepsRecord(events: seq<Event>, record: DemoData, t: Thrown)
    requires events != [] && events[|events| - 1] == Load(Parsed(record))
    ensures Run(events + [Load(Threw(t))]).data == Some(record)
    ensures Run(events + [Load(Threw(t))]).error == Some(ErrorText(t))
  {
    var after := events + [Load(Threw(t))];
    assert after[..|after| - 1] == events;
  }

  /** The hook's state cells, changed by the steps of `parseDemo` and by `reset`. */
  class DemoParser {
    var data: Option<DemoData>
    var loading: bool
    var error: Option<string>

    function State(): LoadState
      reads this
    {
      LoadState(data, loading, error)
    }

    constructor ()
      ensures State() == Initial
    {
      data, loading, error := None, false, None;
    }

    method Start()
      modifies this
      ensures State() == Started(old(State()))
    {
      loading := true;
      error := None;
    }

    method Commit(record: DemoData)
      modifies this
      ensures State() == Committed(old(State()), record)
    {
      data := Some(record);
    }

    method Report(t: Thrown)
      modifies this
      ensures State() == Reported(old(State()), t)
    {
      error := Some(ErrorText(t));
    }

    method Finish()
      modifies this
      ensures State() == Finished(old(State()))
    {
      loading := false;
    }

    /** `parseDemo(file)`: `parse` stands for everything between `setError(null)` and `setData`. */
    method ParseDemo(file: File, parse: File -> Outcome)
      modifies this
      ensures State() == Loaded(old(State()), parse(file))
      ensures !loading
      ensures data == (if parse(file).Parsed? then Some(parse(file).record) else old(data))
    {
      Start();
      match parse(file) {
        case Parsed(record) => Commit(record);
        case Threw(t) => Report(t);
      }
      Finish();
    }

    method Reset()
      modifies this
      ensures State() == Cleared(old(State())) == Initial
    {
      data := None;
      error := None;
      loading := false;
    }
  }
}
