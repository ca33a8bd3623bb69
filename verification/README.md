# hatom state containers in Dafny

This project models the four state containers that the React hooks of `hatom` build
(`src/hooks.ts`):

- the paginated list of `useList`;
- the form of `useForm`;
- the detail view of `useDetail`;
- the modal of `useModal`.

Each hook keeps a mutable `data` object and returns closures that update its fields in
sequence. In the model each container is a class with the same fields and one method per
closure. Beside each class, a datatype holds a snapshot of the same fields, and pure
functions give each operation's effect on a snapshot. Every method is proved to move the
object from `old(Data())` to that function of it. The properties the source promises are
lemmas about those functions.

The asynchronous operations are `getListData`, `submit` and `getDetailData`. Each is split
at its single `await` into three methods:

- the call itself (`GetListData`, `Submit`, `GetDetailData`) runs the loading guard. While
  `loading` is set, it returns `Rejected` with the source's message and changes nothing.
  Otherwise it sets `loading` and returns `Launched` with the request it makes;
- `Resolve…` is the success branch, given what the user callback resolved with;
- `Reject…` is the catch branch, given what the callback threw. It re-raises that error.

The list remembers whether a fetch asked for page 1 when it started. It reads `pageSize`,
`items` and `pagination` again when the fetch completes. The model keeps both of these
facts.

Overlapping calls are handled only by the loading guard: a call made while `loading` is
set is refused. The code has no request counter and no "latest call wins" rule that would
drop stale responses. Two event-trace models (`Session`, `Step`, `Run`) show what this
guard achieves:

- for the list, at most one fetch is ever in flight, and `loading` is set exactly while one
  is;
- for the form, the same holds as long as `reset` is not called. `reset` clears `loading`
  even while a submit is pending, so a second submit can then start alongside the first.

## Model

| member | source | states |
|---|---|---|
| `ListHook.Initial` | src/hooks.ts:41-51 | the state a new list starts in: not loading, not finished, no items, page 1, the page-size option when non-zero else 10, totals 0 |
| `ListHook.Begin` | src/hooks.ts:53-66 | `getListData` up to its `await`: the guard, then `isFinish := false`, `loading := true` and the query for the current page and size with the page-1 flag |
| `ListHook.ResponseItems` | src/hooks.ts:68 | the items a response yields: the list as given, `[]` when it is null |
| `ListHook.ReportedTotal` | src/hooks.ts:62-71 | the `totalItems` a response yields: `res.totalItems || items.length` on page 1, `res.totalItems` as given (possibly undefined) on later pages |
| `ListHook.MergeItems` | src/hooks.ts:73-77 | the list after a fetch: the received items on page 1 or without `listDataAppend`, else old items then received ones |
| `ListHook.PageCount` | src/hooks.ts:82 | `totalPage` from `totalItems` and the page size: the integer ceiling, or NaN when `totalItems` is undefined |
| `ListHook.Succeed` | src/hooks.ts:62-87 | the success branch: items merged, `totalItems` and `totalPage` set over the page size current at completion, `isFinish := true`, `loading := false` |
| `ListHook.Fail` | src/hooks.ts:88-93 | the catch branch: `loading := false`, all else kept |
| `ListHook.WithCurrentPage` | src/hooks.ts:96-101 | `setCurrentPage`'s update: only `currentPage` changes |
| `ListHook.WithPageSize` | src/hooks.ts:105-111 | `setPageSize`'s update: `pageSize` set and `currentPage := 1`, all else kept |
| `ListHook.CeilDiv` | src/hooks.ts:82 | `totalPage` is the least page count `q` with `totalItems <= q * pageSize` |
| `ListHook.CeilDivUnique` | src/hooks.ts:82 | any count meeting those two inequalities is the one `CeilDiv` gives |
| `ListHook.MapItems` | src/hooks.ts:115-116 | `setItems` keeps the length and order; item `i` becomes `callback(item, i, items)` |
| `ListHook.BeginGuard` | src/hooks.ts:53-66 | a fetch is refused exactly while `loading`, and a refused fetch changes nothing; a started one sets `loading`, clears `isFinish` and queries the current page and size |
| `ListHook.SucceedPagination` | src/hooks.ts:79-85 | after success: not loading, finished, same page and size, `totalPage` the ceiling of `totalItems / pageSize` (`totalItems` undefined and `totalPage` NaN together) |
| `ListHook.SucceedTotalItems` | src/hooks.ts:62-71 | on page 1, `totalItems` is the response's non-zero count, else the number of items; on later pages it is the response's count, undefined when absent |
| `ListHook.SucceedItems` | src/hooks.ts:68-77 | items are replaced on page 1 or without `listDataAppend`, else old items followed by new ones; a null list is empty |
| `ListHook.FailedFetch` | src/hooks.ts:53-93 | a fetch that starts and fails ends not loading, not finished, with the items and pagination it started with |
| `ListHook.PageSizeKeepsTotals` | src/hooks.ts:105-111 | `setPageSize` sets the size and page 1, keeping `totalItems`, `totalPage` and the items |
| `ListHook.StepKeepsSingleFlight` | src/hooks.ts:53-118 | every call (`getListData`, `setCurrentPage`, `setPageSize`, `setItems`) or settlement keeps "at most one fetch pending, `loading` iff one is, finished lists have consistent page counts" |
| `ListHook.RunKeepsSingleFlight` | src/hooks.ts:53-118 | that invariant holds after any sequence of those calls and settlements |
| `ListHook.SingleFlightFromStart` | src/hooks.ts:41-118 | from a fresh list, after any sequence of calls of the four list operations and settlements, at most one fetch is in flight, and whenever `isFinish` holds, `totalPage` is the ceiling of `totalItems` over the page size now in force |
| `ListHook.ListContainer.constructor` | src/hooks.ts:41-51 | not loading, not finished, no items, page 1, the given page size or 10, totals 0 |
| `ListHook.ListContainer.GetListData` | src/hooks.ts:53-66 | refuses while loading and leaves the object unchanged; otherwise clears `isFinish`, sets `loading` and returns the query |
| `ListHook.ListContainer.ResolveListData` | src/hooks.ts:62-87 | the success branch: items, `totalItems`, `totalPage`, `isFinish` and `loading` as `Succeed` gives them |
| `ListHook.ListContainer.RejectListData` | src/hooks.ts:88-93 | the catch branch: clears `loading` only and re-raises the error |
| `ListHook.ListContainer.SetCurrentPage` | src/hooks.ts:96-104 | sets the page, then behaves as `getListData` |
| `ListHook.ListContainer.SetPageSize` | src/hooks.ts:105-114 | sets the size and page 1, then behaves as `getListData` |
| `ListHook.ListContainer.SetItems` | src/hooks.ts:115-118 | replaces the items by their mapped list; nothing else changes |
| `FormHook.Initial` | src/hooks.ts:141-145 | the state a new form starts in: not loading, `fields` and `sediments` both copies of the option fields |
| `FormHook.WithFields` | src/hooks.ts:147-151 | `setFields`'s update: the fields merged with the patch, all else kept |
| `FormHook.Begin` | src/hooks.ts:155-160 | `submit` up to its `await`: the guard, then `loading := true` |
| `FormHook.Succeed` | src/hooks.ts:162-166 | the success branch: `sediments :=` the fields current at completion, `loading := false` |
| `FormHook.Fail` | src/hooks.ts:167-173 | the catch branch: `loading := false`, all else kept |
| `FormHook.WithInitialFields` | src/hooks.ts:175-181 | `reset`: `loading := false`, fields replaced by the latest option fields, `sediments` kept |
| `FormHook.Merge` | src/hooks.ts:147-151 | `setFields` overwrites exactly the patched keys and keeps every other field |
| `FormHook.MergeLaws` | src/hooks.ts:147-151 | a patch applied twice equals it applied once; successive patches compose, the later winning |
| `FormHook.SetFieldsKeepsRest` | src/hooks.ts:147-154 | `setFields` leaves `loading` and `sediments` alone |
| `FormHook.BeginGuard` | src/hooks.ts:155-160 | a submit is refused exactly while `loading` and then changes nothing; a started one only sets `loading` |
| `FormHook.SubmitSettles` | src/hooks.ts:162-173 | success sets `sediments` to the current fields; failure keeps `sediments`; both clear `loading` and keep the fields |
| `FormHook.ResetRestores` | src/hooks.ts:175-181 | `reset` installs the option fields, clears `loading`, keeps `sediments`, and discards any `setFields` made before it |
| `FormHook.StepKeepsSingleFlight` | src/hooks.ts:147-174 | every event except `reset` keeps "at most one submit pending, `loading` iff one is" |
| `FormHook.ResetFreeRunSingleFlight` | src/hooks.ts:155-174 | without `reset`, at most one submit is ever in flight |
| `FormHook.ResetAllowsOverlap` | src/hooks.ts:155-181 | submit, reset, submit leaves two submits in flight with `loading` set |
| `FormHook.FormContainer.constructor` | src/hooks.ts:141-145 | not loading; `fields` and `sediments` both the option fields |
| `FormHook.FormContainer.SetFields` | src/hooks.ts:147-154 | fields become the merge of the fields and the patch |
| `FormHook.FormContainer.Submit` | src/hooks.ts:155-160 | refuses while loading and leaves the object unchanged; otherwise sets `loading` |
| `FormHook.FormContainer.ResolveSubmit` | src/hooks.ts:162-166 | the success branch: `sediments := fields`, `loading := false` |
| `FormHook.FormContainer.RejectSubmit` | src/hooks.ts:167-173 | the catch branch: clears `loading` only and re-raises the error |
| `FormHook.FormContainer.SubmitWithoutHandler` | src/hooks.ts:155-166 | with no `onSubmit`, a submit that passes the guard completes at once |
| `FormHook.FormContainer.Reset` | src/hooks.ts:175-181 | `loading := false`, fields replaced by the option fields, `sediments` kept |
| `DetailHook.Initial` | src/hooks.ts:198-201 | the state a new detail view starts in: not loading, item `{}` |
| `DetailHook.Begin` | src/hooks.ts:203-208 | `getDetailData` up to its `await`: the guard, then `loading := true` |
| `DetailHook.Succeed` | src/hooks.ts:210-213 | the success branch: the item is the resolved one, `loading := false` |
| `DetailHook.Fail` | src/hooks.ts:214-220 | the catch branch: `loading := false`, the item kept |
| `DetailHook.BeginGuard` | src/hooks.ts:203-208 | a fetch is refused exactly while `loading` and then changes nothing; a started one keeps the shown item |
| `DetailHook.FetchSettles` | src/hooks.ts:203-220 | a started fetch that succeeds shows the received item; one that fails restores the state it started from |
| `DetailHook.DetailContainer.constructor` | src/hooks.ts:198-201 | not loading, empty item |
| `DetailHook.DetailContainer.GetDetailData` | src/hooks.ts:203-208 | refuses while loading and leaves the object unchanged; otherwise sets `loading` |
| `DetailHook.DetailContainer.ResolveDetailData` | src/hooks.ts:210-213 | stores the received item and clears `loading` |
| `DetailHook.DetailContainer.RejectDetailData` | src/hooks.ts:214-220 | clears `loading` only and re-raises the error |
| `ModalHook.Initial` | src/hooks.ts:233-236 | the state a new modal starts in: not visible, payload `{}` |
| `ModalHook.Show` | src/hooks.ts:238-242 | `showModal`: visible, with the given payload or `{}` when omitted |
| `ModalHook.Hide` | src/hooks.ts:243-247 | `hideModal`: not visible, payload `{}` |
| `ModalHook.ShowHide` | src/hooks.ts:233-247 | showing makes the modal visible with the payload (or `{}`) and overrides an earlier show; hiding always returns to the initial state |
| `ModalHook.ModalContainer.constructor` | src/hooks.ts:233-236 | not visible, empty payload |
| `ModalHook.ModalContainer.ShowModal` | src/hooks.ts:238-242 | `visible := true`, `payload :=` the argument, `{}` when omitted |
| `ModalHook.ModalContainer.HideModal` | src/hooks.ts:243-247 | `visible := false`, `payload := {}` |

## Left out

- React glue is not modelled (`useForceUpdate`, `useMemo`, `useRef`, `useReducer`, `useEffect`, the unmount flag, every `forceUpdate()` call). These are rendering mechanics with no effect on `data`.
- `returnReadonly` is not modelled: the state is exposed as the class fields.
- `src/store.tsx` is not part of this model: it is context and Provider plumbing.
- `setConfig` in `src/utils.ts` is not modelled. `listDataAppend` is a constant given to the list's constructor. The source reads a global flag when each fetch completes, so a change made with `setConfig` mid-fetch is not captured.
- `console.error` logging in the catch branches is not modelled.
- The user callbacks are not modelled as code. What `onGetListData`, `onSubmit` and `onGetDetailData` resolve with or throw is a method argument. `onSetFields` and `onReset` are only notified and change nothing in `data`, so they are left out.
- Promise scheduling is replaced by the call / `Resolve…` / `Reject…` split. A rejection is returned as a value (`Rejected(message)`, or the re-raised error), not as a rejected promise.
- `optionsRef.current` is re-read at every render. The model takes `pageSize` once, at construction, as the source does. It takes the latest `fields` option as the argument of `Reset`.
- Records are maps. Key order and the `undefined` / missing-key distinction of JavaScript objects are not modelled.
- Numbers are `nat` and `int`. Fractional, negative and `NaN` inputs are not modelled. The only `undefined`/`NaN` kept is the one a later page without `totalItems` produces (`Count.NotANumber`).
- `ListHook.ListContainer.SetPageSize`: accepts only a positive size. In the source, `setPageSize(0)` makes `Math.ceil` divide by zero, giving `Infinity` or `NaN` pages.
- A response whose `items` is `undefined` has no value of its own in `ListResponse`. In the source, reading or spreading it throws inside the `try`, which is the catch branch (`RejectListData`). A `null` list is `None` and counts as empty.
