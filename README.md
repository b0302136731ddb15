# TrueHome data layer, modelled in Dafny

TrueHome is a React Native real-estate listing app backed by Appwrite. This project models
the four pieces of its `lib/` directory that hold logic of their own:

- **The data-fetch hook** (`useAppwrite`, module `FetchHook`, `use_appwrite.dfy`). A class
  `Hook` holds the hook's `data`, `loading` and `error` cells. `Begin`, `Succeed` and `Fail`
  are the begin half of `fetchData` and its two ways of settling. `Refetch` starts a new
  invocation. The asynchronous call is replaced by invocation ids: the caller of the model
  decides when each pending invocation settles and how, which covers every interleaving the
  event loop can produce. Ghost fields record the invocations (`calls`), the pending ids,
  the alerts shown and the trace of steps. `Valid()` ties the cells to the pure replay
  `Run(Initial(skip), events)`. `RunIsLastWriter` proves that each cell holds what the last
  step writing it wrote: there is no generation guard, so the last invocation to settle wins.
- **The session context** (`GlobalProvider`, `useGlobalContext`, module `Session`,
  `global_provider.dfy`). These are the values the provider derives from its hook's state:
  `isLoggedIn`, the exposed user with `undefined` normalised to `null`, the default argument
  of `refetch`, and the guard that fails outside a provider.
- **The seeding helpers** (module `Seed`, `seed.dfy`). `getRandomSubset` checks its bounds,
  shuffles a copy of its input in place with Fisher-Yates, and returns a prefix. The module
  also has the integer formulas that pick the generated fields. The model assumes that
  `Math.random()` returns a multiple of 2^-53 in [0, 1). A draw `d < 2^53` stands for `d / 2^53`, so
  `Math.floor(Math.random() * n)` is `d * n / 2^53`. A run's random numbers are a function
  from the call's index to its draw.
- **The backend wrappers** (module `Appwrite`, `appwrite.dfy`). This covers the clause list
  `getProperties` builds by conditional pushes, the fixed clause list of
  `getLatestProperties`, how `getCurrentUser` shapes the account, and the fallbacks (`[]`,
  `null`) when a backend call throws. Query clauses are a datatype, and a backend call is a
  function from its arguments to a `Response` (a value, or `Thrown`).

Three behaviours of the code differ from what one might expect of a fetch hook. The model follows the code:

- A successful settle does not clear `error`; only the begin step does. With overlapping
  invocations a failure can be followed by another invocation's success, and the state then
  holds both the new data and the old error (`SuccessKeepsOverlappingError`).
- The fallback "An unknown error occurred" is used only when the thrown value is not an
  `Error`. An `Error` with an empty message stores the empty string.
- `getCurrentUser` catches its own failures and returns `null`. The provider's hook therefore
  never takes its failure path, and a failed lookup shows as "logged out" (`LookupOutcome`).

`getLatestProperties` sorts ascending by creation time before taking five documents.
Despite its name it asks for the five oldest properties. The model keeps the clause list as
written.

## Model

| member | source | states |
|---|---|---|
| `FetchHook.ErrorMessage` | lib/useAppwrite.ts:51-52 | a thrown value that is not an `Error` gives "An unknown error occurred"; an `Error` gives its own message |
| `FetchHook.Initial` | lib/useAppwrite.ts:34-36 | a new hook has no data and no error, and `loading` is true exactly when the hook is not skipped |
| `FetchHook.Begun` | lib/useAppwrite.ts:42-43 | beginning an invocation sets `loading`, clears `error` and keeps `data` |
| `FetchHook.Succeeded` | lib/useAppwrite.ts:45-58 | a success stores the result in `data`, ends with `loading` false and does not touch `error` |
| `FetchHook.Failed` | lib/useAppwrite.ts:49-58 | a failure stores the error's message, keeps `data` and ends with `loading` false |
| `FetchHook.Step` | lib/useAppwrite.ts:39-61 | one step of `fetchData`; afterwards `loading` is true exactly when the step was a begin |
| `FetchHook.Run` | lib/useAppwrite.ts:39-61 | replays the steps of `fetchData` in order; `loading` ends as the last step left it, or as it started when there were no steps |
| `FetchHook.RunIsLastWriter` | lib/useAppwrite.ts:39-61 | after any sequence of begins and settles, `data` is the last resolved result, `error` is the last begin's `null` or the last failure's message, and `loading` is what the last step wrote; a cell no step wrote keeps its start value |
| `FetchHook.SettleEndsLoading` | lib/useAppwrite.ts:55-57 | after any settle `loading` is false, whatever else is still in flight |
| `FetchHook.FirstSettlingLastWins` | lib/useAppwrite.ts:45-58 | with two overlapping invocations where the first settles last, the final data is the first invocation's result |
| `FetchHook.SuccessKeepsOverlappingError` | lib/useAppwrite.ts:42-53 | a failure followed by an overlapping success leaves both the new data and the failure's message |
| `FetchHook.SequentialRefetchIdempotent` | lib/useAppwrite.ts:71 | two refetches in sequence with the same outcome leave the same state as one |
| `FetchHook.Hook.constructor` | lib/useAppwrite.ts:29-68 | `params` defaults to `{}`; the hook starts with null data and error and `loading = !skip`; at mount the operation is invoked exactly once with the parameters when not skipped, and never when skipped |
| `FetchHook.Hook.Begin` | lib/useAppwrite.ts:40-43 | a new invocation with the given parameters is recorded and pending; the state is `Begun` of the old state; the invariant is kept |
| `FetchHook.Hook.Refetch` | lib/useAppwrite.ts:71 | `refetch(p)` always starts a new invocation with `p`, whatever `skip` is |
| `FetchHook.Hook.Succeed` | lib/useAppwrite.ts:45-58 | a pending invocation resolves: the state becomes `Succeeded`, the invocation is no longer pending, no alert |
| `FetchHook.Hook.Fail` | lib/useAppwrite.ts:49-58 | a pending invocation throws: the state becomes `Failed`, one alert with the same message is raised, the invocation is no longer pending |
| `FetchHook.OverlappingRefetches` | lib/useAppwrite.ts:32-71 | a skipped hook starts with no data, no error and `loading` false; with two overlapping refetches where the second settles first, `loading` is false after that settle and the final data is the first refetch's result |
| `Session.IsLoggedIn` | lib/global-provider.tsx:36 | `!!user` is false for `null`, `undefined` and the not-yet-fetched state, and true for any account |
| `Session.ExposedUser` | lib/global-provider.tsx:47 | the exposed user is `null` for `undefined` and for `null`, and the account itself otherwise |
| `Session.LoggedInIffUser` | lib/global-provider.tsx:36-47 | for every hook state, `isLoggedIn` is true exactly when the exposed user is present |
| `Session.ProviderValue` | lib/global-provider.tsx:44-51 | the provided value has `isLoggedIn == (user != null)`, the hook's `loading`, and the normalised user |
| `Session.SessionFollowsLastLookup` | lib/global-provider.tsx:33-51 | from mount on, after any interleaving, the user shown is the last resolved lookup's, `isLoggedIn` agrees with it, and `loading` is true exactly when the last step was a begin |
| `Session.LookupOutcome` | lib/global-provider.tsx:33-36 | a lookup whose backend call fails logs nobody in; one with a non-empty id logs that account in; `loading` ends false |
| `Session.RefetchParams` | lib/global-provider.tsx:39-41 | without an argument `refetch` forwards `{}`, with one it forwards it unchanged |
| `Session.TypedRefetch` | lib/global-provider.tsx:39-41 | the provider's refetch starts one new invocation with the defaulted parameters: the state becomes `Begun`, one begin step is recorded, and no alert is raised |
| `Session.MountProvider` | lib/global-provider.tsx:33 | the provider's hook is not skipped: `loading` starts true, `getCurrentUser` is invoked once with `{}`, the recorded steps are that one begin, no alert is raised, and the provided value is logged out and loading |
| `Session.UseGlobalContext` | lib/global-provider.tsx:57-63 | with no provider it fails with "useGlobalContext must be used within a GlobalProvider"; under a provider it returns exactly the provided value |
| `Seed.RandomBelow` | lib/seed.ts:58 | `Math.floor(Math.random() * n)` lies in `[0, n)` for `n > 0`, and is 0 for `n = 0` |
| `Seed.SubsetSize` | lib/seed.ts:50-51 | the subset size lies in `[minItems, maxItems]` |
| `Seed.Swap` | lib/seed.ts:59-62 | the destructuring swap exchanges the two positions and leaves every other position alone |
| `Seed.SwapPermutes` | lib/seed.ts:59-62 | a swap preserves the multiset of elements |
| `Seed.ShuffleFrom` | lib/seed.ts:57-63 | the Fisher-Yates iterations keep the length |
| `Seed.ShuffleFromPermutes` | lib/seed.ts:57-63 | any run of the Fisher-Yates iterations is a permutation of its input |
| `Seed.Shuffled` | lib/seed.ts:57-63 | the whole Fisher-Yates loop of `getRandomSubset`, from the last position down to 1 with random calls numbered from 1; it keeps the length |
| `Seed.ShuffledPermutes` | lib/seed.ts:57-63 | the whole shuffle is a permutation of its input |
| `Seed.ShuffleInPlace` | lib/seed.ts:57-63 | the in-place loop leaves the array equal to `Shuffled` of its old contents (the loop body asserts that each swap index lies in `[0, i]`) |
| `Seed.SubMultisetNoDuplicates` | lib/seed.ts:66 | a sub-multiset of a duplicate-free sequence is duplicate-free |
| `Seed.GetRandomSubset` | lib/seed.ts:33-67 | `minItems > maxItems` fails with its message first; otherwise `minItems < 0` or `maxItems > length` fails with the range message; with valid bounds the result is the prefix of the shuffled copy of the chosen size, lies in `[minItems, maxItems]`, is a sub-multiset of the input and is duplicate-free when the input is; the input array is never written |
| `Seed.OneToFive` | lib/seed.ts:174-176 | rating, bedrooms and bathrooms lie in 1..5 |
| `Seed.Price` | lib/seed.ts:172 | price lies in 1000..9999 |
| `Seed.Area` | lib/seed.ts:173 | area lies in 500..3499 |
| `Seed.Pick` | lib/seed.ts:142 | a random pick from a non-empty list is an element of it; from an empty list it is `undefined` |
| `Seed.SelectedFacilities` | lib/seed.ts:149-151 | a property gets 1 to 5 facilities, all from the facility list and without repeats |
| `Seed.PropertyImage` | lib/seed.ts:154-159 | property `i` gets `propertiesImages[i]` when `i` is a valid index, otherwise some image of the list |
| `Appwrite.Documents` | lib/appwrite.ts:164-168 | a listing gives its documents, or `[]` when the call threw |
| `Appwrite.GetLatestProperties` | lib/appwrite.ts:112-125 | the clause list is exactly `[orderAsc("$createdAt"), limit(5)]`; a failure gives `[]` |
| `Appwrite.BuildPropertyQuery` | lib/appwrite.ts:140-156 | the clause list starts with `orderDesc("$createdAt")`; it holds the type filter exactly when `filter` is non-empty and not "All", the OR of name/address/type searches on the same text exactly when `query` is non-empty, and the limit exactly when `limit` is truthy; nothing else; in the order order, filter, search, limit; its length is 1 plus the optional clauses present |
| `Appwrite.RankSortedUnique` | lib/appwrite.ts:140-156 | two clause lists in clause order with the same clauses are equal |
| `Appwrite.PropertyQueryUnique` | lib/appwrite.ts:140-156 | the description of the `getProperties` clause list fits exactly one list |
| `Appwrite.GetProperties` | lib/appwrite.ts:130-169 | lists with that clause list, and gives `[]` when the call threw |
| `Appwrite.GetPropertyById` | lib/appwrite.ts:174-186 | gives the document, or `null` exactly when the call threw |
| `Appwrite.GetCurrentUser` | lib/appwrite.ts:92-108 | a thrown call gives `null`; an empty `$id` gives `undefined`; otherwise the account with every field kept except `avatar`, which becomes the initials avatar of the name |

## Left out

- `login` and `logout` (lib/appwrite.ts:37-88): an OAuth 2.0 browser redirect, URL parsing and SDK session calls, all through platform libraries.
- The Appwrite `Client`, `Account`, `Avatars` and `Databases` objects and the environment configuration (lib/appwrite.ts:12-34). Backend calls are function parameters returning a value or `Thrown`; `avatar.getInitials` is the parameter `initialsAvatar`, and a throw from it is not modelled.
- `Account` keeps the fields other than id, name, email and avatar as a map from names to strings. The boolean and object fields of the user record (`status`, `emailVerification`, `prefs`) are not modelled with their own types; "every field kept" holds under this abstraction.
- The network loop of `seed()` (lib/seed.ts:70-192): listing, deleting and creating documents, and console logging. Only its integer formulas and random picks are modelled.
- The order that `facilities.sort(() => 0.5 - Math.random())` leaves: `SelectedFacilities` takes it as an input that is some permutation of the facility list.
- Floating point: draws are exact multiples of 2^-53, so rounding in `Math.random() * n` is not modelled. Bounds and sizes are integers, and fractional or NaN arguments (a NaN `limit`, fractional `minItems`) are not modelled.
- `filter` and `query` are strings as declared; a caller that passes `undefined` at run time is not modelled.
- React machinery (`useState`, `useCallback`, `useEffect`, `createContext`): state cells are class fields, the mount effect runs in the constructor, and `Alert.alert` is the ghost list `alerts`.
- The wrapped operation `fn` is not called by the model: `Succeed` and `Fail` take the outcome it produced, and a ghost set of pending ids stands for the promises in flight. The event loop itself is not modelled.
- The `refetch` function value inside the provided context: `ContextValue` holds `isLoggedIn`, `user` and `loading`, and the provider's refetch is `TypedRefetch`.
- components/Search.tsx and app/sign-in.tsx: user-interface code (a time-based debounce and an empty login handler).
