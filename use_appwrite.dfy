/**
 * The data-fetch hook of lib/useAppwrite.ts.
 *
 * The hook keeps three pieces of state, `data`, `loading` and `error`, and changes
 * them only inside `fetchData`: a begin step (`loading := true`, `error := null`),
 * then, when the wrapped operation settles, either `data := result` or
 * `error := message`, and finally `loading := false`.
 *
 * The asynchronous operation itself is not modelled. Each invocation is identified
 * by an id; the caller of the model chooses when and how each pending invocation
 * settles, which covers every interleaving the event loop can produce.
 */
module FetchHook {
  import opened Wrappers

  /** A scalar parameter value: the hook only accepts strings and numbers. */
  datatype Scalar = Str(s: string) | Num(n: int)

  /** The parameter record passed verbatim to the wrapped operation. */
  type Params = map<string, Scalar>

  /** What the wrapped operation threw: an `Error` object with its message, or anything else. */
  datatype Thrown = ErrorObject(message: string) | OtherValue

  /** The fallback message for a thrown value that is not an `Error`. */
  const UnknownError: string := "An unknown error occurred"

  /** The message stored in `error` (and shown in the alert) for a failure. */
  function ErrorMessage(t: Thrown): (m: string)
    ensures t.ErrorObject? ==> m == t.message
    ensures t.OtherValue? ==> m == UnknownError
  {
    match t
    case ErrorObject(message) => message
    case OtherValue => UnknownError
  }

  /** The three state cells of the hook. */
  datatype FetchState<T> = FetchState(data: Option<T>, loading: bool, error: Option<string>)

  /** One state-changing step of `fetchData`: its begin half, or the settling of one invocation. */
  datatype Event<T> = Began | Resolved(result: T) | Rejected(thrown: Thrown)

  /** The state right after the hook is created. */
  function Initial<T>(skip: bool): (s: FetchState<T>)
    ensures s.data == None && s.error == None
    ensures s.loading <==> !skip
  {
    FetchState(None, !skip, None)
  }

  /** The begin half of `fetchData`. */
  function Begun<T>(s: FetchState<T>): (t: FetchState<T>)
    ensures t.loading && t.error == None && t.data == s.data
  {
    s.(loading := true, error := None)
  }

  /** The success path of `fetchData` followed by its `finally`. */
  function Succeeded<T>(s: FetchState<T>, result: T): (t: FetchState<T>)
    ensures !t.loading && t.data == Some(result) && t.error == s.error
  {
    s.(data := Some(result), loading := false)
  }

  /** The failure path of `fetchData` followed by its `finally`. */
  function Failed<T>(s: FetchState<T>, thrown: Thrown): (t: FetchState<T>)
    ensures !t.loading && t.data == s.data && t.error == Some(ErrorMessage(thrown))
  {
    s.(error := Some(ErrorMessage(thrown)), loading := false)
  }

  /** One step of `fetchData`; afterwards `loading` is true exactly when the step was a begin. */
  function Step<T>(s: FetchState<T>, e: Event<T>): (t: FetchState<T>)
    ensures t.loading <==> e.Began?
  {
    match e
    case Began => Begun(s)
    case Resolved(r) => Succeeded(s, r)
    case Rejected(t) => Failed(s, t)
  }

  /** The state after the events happen in order, starting from `s`. */
  function Run<T>(s: FetchState<T>, events: seq<Event<T>>): (r: FetchState<T>)
    ensures r.loading == (if events == [] then s.loading else events[|events| - 1].Began?)
    decreases |events|
  {
    if events == [] then s else Run(Step(s, events[0]), events[1..])
  }

  // Reference definitions, read from the END of the trace: which event wrote each cell last.

  /** The result of the last invocation to resolve, if any resolved. */
  function LastResult<T>(events: seq<Event<T>>): Option<T>
    decreases |events|
  {
    if events == [] then None
    else match events[|events| - 1]
      case Resolved(r) => Some(r)
      case _ => LastResult(events[..|events| - 1])
  }

  /**
   * The last write to `error`: `Some(None)` when it was a begin, `Some(Some(m))` when it
   * was a failure with message `m`, `None` when nothing wrote it.
   */
  function LastErrorWrite<T>(events: seq<Event<T>>): Option<Option<string>>
    decreases |events|
  {
    if events == [] then None
    else match events[|events| - 1]
      case Began => Some(None)
      case Rejected(t) => Some(Some(ErrorMessage(t)))
      case Resolved(_) => LastErrorWrite(events[..|events| - 1])
  }

  /** The last write to `loading`: true for a begin, false for any settle, `None` for none. */
  function LastLoadingWrite<T>(events: seq<Event<T>>): Option<bool> {
    if events == [] then None else Some(events[|events| - 1].Began?)
  }

  lemma {:induction false} RunAppend<T>(s: FetchState<T>, events: seq<Event<T>>, e: Event<T>)
    ensures Run(s, events + [e]) == Step(Run(s, events), e)
    decreases |events|
  {
    if events != [] {
      assert (events + [e])[1..] == events[1..] + [e];
      RunAppend(Step(s, events[0]), events[1..], e);
    }
  }

  /**
   * Last writer wins: whatever the interleaving, each cell holds what the last event that
   * writes it wrote, and keeps its starting value when no event writes it.
   */
  lemma {:induction false} RunIsLastWriter<T>(s: FetchState<T>, events: seq<Event<T>>)
    ensures Run(s, events).data == (if LastResult(events).Some? then LastResult(events) else s.data)
    ensures Run(s, events).error == LastErrorWrite(events).GetOr(s.error)
    ensures Run(s, events).loading == LastLoadingWrite(events).GetOr(s.loading)
    decreases |events|
  {
    if events != [] {
      var n := |events| - 1;
      assert events == events[..n] + [events[n]];
      RunAppend(s, events[..n], events[n]);
      RunIsLastWriter(s, events[..n]);
    }
  }

  /** A settle always leaves `loading` false, even when other invocations are still pending. */
  lemma SettleEndsLoading<T>(s: FetchState<T>, events: seq<Event<T>>)
    requires events != [] && !events[|events| - 1].Began?
    ensures !Run(s, events).loading
  {
    RunIsLastWriter(s, events);
  }

  /**
   * Two overlapping invocations where the first settles last: the final data is the
   * first invocation's result.
   */
  lemma {:induction false} FirstSettlingLastWins<T>(s: FetchState<T>, first: T, second: T)
    ensures Run(s, [Began, Began, Resolved(second), Resolved(first)]).data == Some(first)
  {
    RunIsLastWriter(s, [Began, Began, Resolved(second), Resolved(first)]);
  }

  /**
   * Success does not clear `error`: if an overlapping invocation fails before another one
   * succeeds, the state holds both the new data and the failure's message.
   */
  lemma {:induction false} SuccessKeepsOverlappingError<T>(s: FetchState<T>, r: T, t: Thrown)
    ensures var u := Run(s, [Began, Began, Rejected(t), Resolved(r)]);
      u.data == Some(r) && u.error == Some(ErrorMessage(t)) && !u.loading
  {
    RunIsLastWriter(s, [Began, Began, Rejected(t), Resolved(r)]);
  }

  /**
   * Refetching twice in sequence with the same outcome leaves the same state as
   * refetching once.
   */
  lemma {:induction false} SequentialRefetchIdempotent<T>(s: FetchState<T>, settle: Event<T>)
    requires !settle.Began?
    ensures Run(s, [Began, settle, Began, settle]) == Run(s, [Began, settle])
  {
    var twice, once := [Began, settle, Began, settle], [Began, settle];
    assert twice[..3] == [Began, settle, Began] && twice[..3][..2] == once && once[..1] == [Began];
    RunIsLastWriter(s, twice);
    RunIsLastWriter(s, once);
  }

  /**
   * One hook instance. The fields are the hook's state cells; the ghost fields record the
   * invocations of the wrapped operation (`calls`), which of them are still pending, the
   * trace of state-changing steps, and the alerts shown to the user.
   */
  class Hook<T> {
    var data: Option<T>
    var loading: bool
    var error: Option<string>

    ghost const skip: bool
    ghost var calls: seq<Params>
    ghost var pending: set<nat>
    ghost var events: seq<Event<T>>
    ghost var alerts: seq<string>

    function State(): FetchState<T>
      reads this
    {
      FetchState(data, loading, error)
    }

    /**
     * The state is the one the recorded steps produce from the initial state, and every
     * pending id names a recorded invocation.
     */
    ghost predicate Traced()
      reads this
    {
      && State() == Run(Initial(skip), events)
      && (forall id :: id in pending ==> id < |calls|)
    }

    /** Besides, once the mount effect has run, `loading` is true only while some invocation is pending. */
    ghost predicate Valid()
      reads this
    {
      Traced() && (loading ==> pending != {})
    }

    /**
     * Creating the hook: `params` defaults to `{}`; unless `skip` is set, the mount effect
     * invokes the operation exactly once with those parameters.
     */
    constructor (params: Option<Params>, skip: bool)
      ensures Valid() && this.skip == skip
      ensures data == None && error == None && loading == !skip
      ensures calls == (if skip then [] else [params.GetOr(map[])])
      ensures pending == (if skip then {} else {0})
      ensures events == (if skip then [] else [Began]) && alerts == []
    {
      data, loading, error := None, !skip, None;
      this.skip := skip;
      calls, pending, events, alerts := [], {}, [], [];
      new;
      if !skip {
        ghost var _ := Begin(params.GetOr(map[]));
      }
    }

    /** The begin half of `fetchData(p)`: starts a new invocation and returns its id. */
    method Begin(p: Params) returns (ghost id: nat)
      requires Traced()
      modifies this
      ensures Valid()
      ensures State() == Begun(old(State()))
      ensures id == |old(calls)| && calls == old(calls) + [p]
      ensures pending == old(pending) + {id}
      ensures events == old(events) + [Began] && alerts == old(alerts)
    {
      RunAppend(Initial(skip), events, Began);
      loading := true;
      error := None;
      id := |calls|;
      calls := calls + [p];
      pending := pending + {id};
      events := events + [Began];
    }

    /** `refetch(p)`: always starts a new invocation with `p`, whatever `skip` is. */
    method Refetch(p: Params) returns (ghost id: nat)
      requires Valid()
      modifies this
      ensures Valid()
      ensures State() == Begun(old(State()))
      ensures id == |old(calls)| && calls == old(calls) + [p]
      ensures pending == old(pending) + {id}
      ensures events == old(events) + [Began] && alerts == old(alerts)
    {
      id := Begin(p);
    }

    /** Pending invocation `id` resolves with `result`: `data := result`, then `loading := false`. */
    method Succeed(ghost id: nat, result: T)
      requires Valid() && id in pending
      modifies this
      ensures Valid() && calls == old(calls)
      ensures State() == Succeeded(old(State()), result)
      ensures pending == old(pending) - {id}
      ensures events == old(events) + [Resolved(result)] && alerts == old(alerts)
    {
      RunAppend(Initial(skip), events, Resolved(result));
      data := Some(result);
      loading := false;
      pending := pending - {id};
      events := events + [Resolved(result)];
    }

    /**
     * Pending invocation `id` throws `thrown`: `error` gets its message, an alert shows the
     * same message, then `loading := false`; `data` keeps its previous value.
     */
    method Fail(ghost id: nat, thrown: Thrown)
      requires Valid() && id in pending
      modifies this
      ensures Valid() && calls == old(calls)
      ensures State() == Failed(old(State()), thrown)
      ensures pending == old(pending) - {id}
      ensures events == old(events) + [Rejected(thrown)]
      ensures alerts == old(alerts) + [ErrorMessage(thrown)]
    {
      RunAppend(Initial(skip), events, Rejected(thrown));
      var message := ErrorMessage(thrown);
      error := Some(message);
      alerts := alerts + [message];
      loading := false;
      pending := pending - {id};
      events := events + [Rejected(thrown)];
    }
  }

  /**
   * A client: a skipped hook, two overlapping refetches, the second settling first. The
   * skipped hook starts idle with nothing invoked; after the first settle `loading` is false
   * although an invocation is still pending; the data finally shown is the first refetch's
   * result.
   */
  method OverlappingRefetches<T>(p1: Params, p2: Params, r1: T, r2: T)
    returns (idleAtStart: bool, loadingAfterFirstSettle: bool, finalData: Option<T>)
    ensures idleAtStart && !loadingAfterFirstSettle && finalData == Some(r1)
  {
    var h := new Hook<T>(None, true);
    idleAtStart := h.data == None && !h.loading && h.error == None;
    assert h.calls == [];
    ghost var a := h.Refetch(p1);
    ghost var b := h.Refetch(p2);
    assert a == 0 && b == 1 && h.calls == [p1, p2];
    h.Succeed(b, r2);
    assert a in h.pending && h.data == Some(r2);
    loadingAfterFirstSettle := h.loading;
    h.Succeed(a, r1);
    assert h.pending == {};
    finalData := h.data;
  }
}
