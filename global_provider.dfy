/**
 * The session context of lib/global-provider.tsx: one hook instance bound to
 * `getCurrentUser`, the values the provider derives from its state, the default argument
 * of its `refetch`, and the guard of `useGlobalContext`.
 */
module Session {
  import opened Wrappers
  import opened FetchHook
  import Appwrite

  type User = Appwrite.Account

  /** The hook's `data` for the provider: `null` before any result, else what `getCurrentUser` returned. */
  type UserData = Option<JsNullable<User>>

  /** The value the provider hands to its consumers (`refetch` is modelled by `RefetchParams`). */
  datatype ContextValue = ContextValue(isLoggedIn: bool, user: Option<User>, loading: bool)

  /** `!!user`: true for a user object, false for `null` and `undefined`. */
  function IsLoggedIn(data: UserData): (loggedIn: bool)
    ensures data == None || data == Some(Null) || data == Some(Undefined) ==> !loggedIn
    ensures forall u :: data == Some(Value(u)) ==> loggedIn
  {
    data.Some? && data.value.Value?
  }

  /** `user === undefined ? null : user`, with `null` written `None`. */
  function ExposedUser(data: UserData): (u: Option<User>)
    ensures data == Some(Undefined) ==> u == None
    ensures data == None || data == Some(Null) ==> u == None
    ensures forall x :: data == Some(Value(x)) ==> u == Some(x)
  {
    match data
    case Some(Value(x)) => Some(x)
    case _ => None
  }

  /**
   * The two derivations agree: whatever the hook's data, `isLoggedIn` is true exactly when
   * the exposed user is present.
   */
  lemma LoggedInIffUser(data: UserData)
    ensures IsLoggedIn(data) <==> ExposedUser(data).Some?
  {
  }

  /** The provider's value for a hook state. */
  function ProviderValue(s: FetchState<JsNullable<User>>): (v: ContextValue)
    ensures v.isLoggedIn <==> v.user.Some?
    ensures v.loading == s.loading
    ensures v.user == ExposedUser(s.data)
  {
    LoggedInIffUser(s.data);
    ContextValue(IsLoggedIn(s.data), ExposedUser(s.data), s.loading)
  }

  /**
   * After any sequence of steps of the provider's hook, the user shown is the one from the
   * last `getCurrentUser` call to resolve (none before any resolved), `isLoggedIn` agrees
   * with it, and `loading` is true exactly when the last step was a begin.
   */
  lemma {:induction false} SessionFollowsLastLookup(events: seq<Event<JsNullable<User>>>)
    ensures var v := ProviderValue(Run(Initial(false), [Began] + events));
      && v.user == ExposedUser(LastResult(events))
      && (v.isLoggedIn <==> v.user.Some?)
      && (v.loading <==> events == [] || events[|events| - 1].Began?)
  {
    var all := [Began] + events;
    RunIsLastWriter(Initial(false), all);
    LastResultSkipsBegin(events);
    if events != [] {
      assert all[|all| - 1] == events[|events| - 1];
    }
  }

  lemma {:induction false} LastResultSkipsBegin<T>(events: seq<Event<T>>)
    ensures LastResult([Began] + events) == LastResult(events)
    decreases |events|
  {
    if events != [] {
      var n := |events| - 1;
      assert ([Began] + events)[..|events|] == [Began] + events[..n];
      LastResultSkipsBegin(events[..n]);
    }
  }

  /**
   * A failing backend call makes `getCurrentUser` return `null`, so the hook takes the
   * success path and the session shows nobody logged in; a response with an id logs that
   * account in.
   */
  lemma LookupOutcome(s: FetchState<JsNullable<User>>, response: Appwrite.Response<User>,
                      initialsAvatar: string -> string)
    ensures var v := ProviderValue(Succeeded(s, Appwrite.GetCurrentUser(response, initialsAvatar)));
      && !v.loading
      && (v.isLoggedIn <==> response.Ok? && response.value.id != "")
      && (v.isLoggedIn ==> v.user.value.id == response.value.id)
  {
  }

  /** `newParams || {}`: the argument `refetch` forwards to the hook. */
  function RefetchParams(newParams: Option<Params>): (p: Params)
    ensures newParams.None? ==> p == map[]
    ensures newParams.Some? ==> p == newParams.value
  {
    match newParams
    case Some(q) => q
    case None => map[]
  }

  /** The provider's `refetch`: a new invocation of `getCurrentUser` with the defaulted argument. */
  method TypedRefetch(hook: Hook<JsNullable<User>>, newParams: Option<Params>)
    requires hook.Valid()
    modifies hook
    ensures hook.Valid()
    ensures hook.State() == Begun(old(hook.State()))
    ensures hook.calls == old(hook.calls) + [RefetchParams(newParams)]
    ensures hook.pending == old(hook.pending) + {|old(hook.calls)|}
    ensures hook.events == old(hook.events) + [Began] && hook.alerts == old(hook.alerts)
  {
    ghost var _ := hook.Refetch(RefetchParams(newParams));
  }

  /**
   * Mounting the provider: its hook is not skipped and gets no parameters, so `loading`
   * starts true and `getCurrentUser` is invoked once, with `{}`.
   */
  method MountProvider() returns (hook: Hook<JsNullable<User>>)
    ensures fresh(hook) && hook.Valid() && !hook.skip
    ensures hook.events == [Began] && hook.alerts == []
    ensures hook.loading && hook.data == None && hook.error == None
    ensures hook.calls == [map[]] && hook.pending == {0}
    ensures ProviderValue(hook.State()) == ContextValue(false, None, true)
  {
    hook := new Hook(None, false);
  }

  const OutsideProvider: string := "useGlobalContext must be used within a GlobalProvider"

  /** `useGlobalContext`: the provided value, or an error when there is no provider above. */
  function UseGlobalContext(provided: Option<ContextValue>): (r: Result<ContextValue, string>)
    ensures r.Failure? <==> provided.None?
    ensures r.Failure? ==> r.error == OutsideProvider
    ensures r.Success? ==> r.value == provided.value
  {
    match provided
    case None => Failure(OutsideProvider)
    case Some(v) => Success(v)
  }
}
