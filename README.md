# KoLite paging and commands, modelled in Dafny

This project models two add-ons for Knockout from the KoLite library.

The first is `ko.pagedObservableArray`, a collection that fetches its data page by page through an injected `loadPage` function. Its state is the data (`allData`), the page size, the page index, the server's total count and a `loading` flag. It derives two views from that state: `pageCount` and the current `page`. Navigating (`nextPage`, `previousPage`, `refresh`, or writing a new `pageSize`) starts a load. When the load settles, a successful response commits the count and the data, and every response clears `loading`.

The second is `ko.command` and `ko.asyncCommand`. These are execute delegates guarded by `canExecute`. The asynchronous one also has a busy flag, `isExecuting`, and a completion callback. The model also covers the pure parts of the `command` binding handler: normalising a binding value, splitting command names between binding handlers and DOM events, and choosing the `canExecute` that enables the element.

Files:

- `wrappers.dfy`: `Option` and `Result`.
- `paging.dfy` (module `Paging`): `pageCount` and `page` as pure functions, JavaScript `slice`, and lemmas about pages.
- `paged_observable_array.dfy` (module `PagedObservableArray`): the construction checks, and the class `PagedArray`. Its fields are the observables and its methods are the operations. It ends with two scenario clients.
- `command.dfy` (module `Command`): `ko.command` as a datatype and `ko.asyncCommand` as a class.
- `command_binding.dfy` (module `CommandBinding`): the binding handler's normalisation, grouping and selection.

Modelling choices:

- Knockout observables are plain fields. Computed observables (`pageCount`, `page`, `canExecute`) are functions of those fields.
- The asynchronous load is split in two. `StartLoad` runs when the load is issued. `CompleteLoad` is the `.then` handler followed by the `.always` handler.
- `PagedArray.pending` holds the request snapshot of every load issued and not yet settled. `CompleteLoad(i, …)` settles any one of them, so settlements may arrive in any order. Each settlement uses its own snapshot, as each closure does in the source. It clears the single `loading` flag even when other loads are still pending, as the source does.
- Request parameters are a map from field name to number. The snapshot is `{pageSize, pageIndex}`. `parameterMap` may return any such map. "The snapshot carries a numeric `pageIndex`" means that the key `"pageIndex"` is present.
- A settlement is `Resolved(status, items, count)`, where `items` and `count` are the fields the schema names, or `Rejected`. jQuery's `.then` runs its handler only on resolve, so `Rejected` behaves like a non-`"success"` status: only `loading` changes.
- `page` follows JavaScript `Array.prototype.slice` exactly, including negative arguments. `pageIndex` can become negative through a snapshot returned by `parameterMap`.
- Writing `pageSize` notifies its subscriber only when the value changes, because Knockout observables skip notification for an equal primitive. So `SetPageSize` with the current size does nothing.
- Page indices are zero-based, as in this revision of the source.
- `PagedArray.PageCount()` and `PagedArray.Page()` are the computed `pageCount` and `page`. They only apply `Paging.PageCountOf` and `Paging.PageOf` to the current fields, so their properties are the contracts and lemmas of those two functions.
- `asyncCommand`'s `isExecuting` starts as `undefined` in the source, which is falsy. The model starts it at `false`.
- The execute delegate is never run. Each call to it is recorded with its argument list and with the busy flag at the moment of the call. This shows that the flag is set before the delegate is called. The delegate's `length` becomes `arity`.

## Model

| member | source | states |
|---|---|---|
| Paging.CeilDiv | knockout.pagedObservableArray.js:83-85 | `Math.ceil(n / size)` for a non-negative `n`: the least `q` with `n <= q * size`. |
| Paging.PageCountOf | knockout.pagedObservableArray.js:81-86 | `pageCount` is at least 1. It is the fewest pages of `pageSize` that hold the effective count: `totalCount` when positive, otherwise `allData.length`. It is 1 when that count is 0. |
| Paging.Slice | knockout.pagedObservableArray.js:94 | JavaScript `slice`: at most `end - start` items, all from the sequence. For non-negative arguments it is the clipped sub-range. |
| Paging.PageOf | knockout.pagedObservableArray.js:89-95 | `page` has at most `pageSize` items, all taken from `allData`. For a non-negative index it is `allData[pageSize*pageIndex .. pageSize*(pageIndex+1)]`, clipped to the data. |
| Paging.PagesArePrefix | knockout.pagedObservableArray.js:89-95 | The first `k` pages, laid end to end, are the first `pageSize * k` items of `allData`, clipped to its length. |
| Paging.ClientPagesCoverData | knockout.pagedObservableArray.js:81-95 | In client paging (no server count), pages `0 .. pageCount-1` laid end to end are exactly `allData`. |
| Paging.ClientPageInRange | knockout.pagedObservableArray.js:81-95 | In client paging, every index in `[0, pageCount)` shows a non-empty page when there is data. Every page before the last is full. |
| Paging.ServerPageBeyondData | knockout.pagedObservableArray.js:89-95 | If `allData` holds at most one page (server paging without aggregation), `page` is empty at every index from 1 on. |
| PagedObservableArray.Configure | knockout.pagedObservableArray.js:60-78 | No options gives "Options not specified". Options without `loadPage` give "loadPage not specified on options". Otherwise the defaults apply: schema `{Data, Count}`, page size 10 when absent or 0 (at least 1 for a non-negative size), and data `[]` when absent. |
| PagedObservableArray.Committed | knockout.pagedObservableArray.js:113-120 | The data a successful response commits. It is `map(items)` when `map` is given, which ignores `aggregateResults`. Otherwise it is the old data followed by the items when aggregating, and the items alone when not. |
| PagedObservableArray.PagedArray.RequestParams | knockout.pagedObservableArray.js:106-109 | The request snapshot is `{pageSize, pageIndex}` of the current state, replaced by `parameterMap` of it when `parameterMap` is given. |
| PagedObservableArray.PagedArray.constructor | knockout.pagedObservableArray.js:58-158 | The state starts from the `Configure` defaults with `pageIndex` 0, `totalCount` 0 and nothing pending. Exactly one load is issued, and `loading` is set, when `autoLoad` is set. Otherwise there is none. |
| PagedObservableArray.PagedArray.StartLoad | knockout.pagedObservableArray.js:103-111 | `loading` becomes true. One request, the current snapshot, is added to the pending requests. Nothing else changes. |
| PagedObservableArray.PagedArray.CompleteLoad | knockout.pagedObservableArray.js:112-126 | The settled request leaves the pending list and `loading` becomes false. On "success", `totalCount` becomes the count and `allData` becomes `Committed(...)`. `pageIndex` becomes the snapshot's `pageIndex` only when the snapshot has one. Any other settlement changes neither the data, nor the count, nor the index. |
| PagedObservableArray.PagedArray.Refresh | knockout.pagedObservableArray.js:129-131 | Issues one load with the current index and size, and nothing else changes. |
| PagedObservableArray.PagedArray.NextPage | knockout.pagedObservableArray.js:134-139 | Below the last page: the index goes up by exactly 1 and one load is issued. On or beyond the last page: nothing changes and no load is issued. An index in `[0, pageCount)` stays in that range. |
| PagedObservableArray.PagedArray.PreviousPage | knockout.pagedObservableArray.js:142-147 | Above page 0: the index goes down by exactly 1 and one load is issued. At 0 or below: nothing changes and no load is issued. An index in `[0, pageCount)` stays in that range. |
| PagedObservableArray.PagedArray.SetPageSize | knockout.pagedObservableArray.js:150-153 | A new page size resets the index to 0 and issues exactly one load. Writing the current size changes nothing. Data and count are untouched. |
| Command.Command.CanExecute | knockout.command.js:23-25 | The delegate's answer when a `canExecute` delegate exists, and true otherwise. |
| Command.Command.Execute | knockout.command.js:27-32 | The execute delegate is called at most once. It is called exactly when `canExecute` holds, and then with `(arg1, arg2)`. |
| Command.ArgList | knockout.command.js:57-67 | The argument list has length `1 + [arity>=2] + [arity>=3]`. `arg1` comes first when arity is at least 2, then `arg2` when arity is at least 3. The completion callback is always last and appears nowhere else. |
| Command.AsyncCommand.constructor | knockout.command.js:37-47 | A new asynchronous command is not executing and has made no calls. |
| Command.AsyncCommand.CanExecute | knockout.command.js:49-51 | `canExecuteDelegate(isExecuting)` when a delegate exists, and `!isExecuting` otherwise. |
| Command.AsyncCommand.Execute | knockout.command.js:53-70 | When `canExecute` refuses, nothing changes and the delegate is not called. Otherwise `isExecuting` becomes true and the delegate is then called once with `ArgList`, already busy at the call. With no delegate, an execute while busy is a no-op. |
| Command.AsyncCommand.Complete | knockout.command.js:43-45 | The callback clears `isExecuting` and changes nothing else. |
| CommandBinding.Normalize | knockout.command.js:100 | A value with `execute` becomes `{click: value}`. Any other value is its own command map. Distinct names stay distinct. |
| CommandBinding.HandlerEntriesExact | knockout.command.js:106-119 | The binding-handler group holds exactly the commands whose names are registered handlers, each with its own `execute`. |
| CommandBinding.InitBindingHandlers | knockout.command.js:106-119 | The loop hands the registered-handler commands, in iteration order, to their handlers. |
| CommandBinding.InitEventHandlers | knockout.command.js:121-128 | The events map has exactly the unregistered names as keys, each mapped to its command's `execute`. Together with `HandlerEntriesExact`, every name lands in exactly one of the two groups. |
| CommandBinding.SelectCanExecute | knockout.command.js:141-156 | Picks the value's own `canExecute` if present. Otherwise it picks the first command's `canExecute` in iteration order, and all earlier commands have none. The result is None (no enable update) exactly when nothing has one. |

## Left out

- The Knockout observable, computed and subscription machinery is not modelled. Only its effect is: fields, derived functions, and the `pageSize` reaction.
- The `throttle: 100` extender on `page` is not modelled. It delays the re-evaluation of `page` by a 100 ms timer. So in the source, a read of `page` within 100 ms of a change to `pageIndex`, `pageSize` or `allData` returns the page computed before the change, for example right after `nextPage`. The model's `PagedArray.Page()` is always the settled value, the one the source shows once the window has passed.
- jQuery `$.when(...).then(...).always(...)` becomes the explicit `CompleteLoad` call. Concurrency is reduced to completions arriving in any order. The single `loading` flag is cleared by whichever load settles first.
- PagedObservableArray.PagedArray.CompleteLoad and PagedObservableArray.PagedArray.constructor: do not model aliasing with the caller's objects, or later changes to them:
  - The source makes the caller's `options.data` array the observable's backing array. With `aggregateResults`, the success path pushes the fetched items into that same array in place. So the caller's `options.data`, and any array read earlier from `allData()`, grow too. In the model, `allData` is a value and only the field changes.
  - The source reads `options.parameterMap`, `options.aggregateResults`, `options.schema` and `options.map` from the caller's object at every load, so a later change to that object changes what later loads do. The model fixes all four when the array is constructed.
  - The source writes the default schema back into the caller's options object. The model only keeps it in the `schema` field.
- The injected functions `loadPage`, `parameterMap`, `map`, `execute` and `canExecute` are abstract. `loadPage`'s calls are recorded in `pending`. `map` and `parameterMap` are total functions; an exception thrown by them is not modelled.
- Reading `schema.data` and `schema.count` from the response object happens before `CompleteLoad`, which receives the two fields directly. A response missing either field is not modelled. This is why the `schema` field is kept, from the constructor's defaults, but no method reads it.
- PagedObservableArray.Committed: the source's `map` takes the raw `data[schema.data]`, which can have any shape. The model gives raw and committed items the same type `T`, because without `map` the raw items are pushed into `allData` unchanged.
- PagedObservableArray.Configure: the "at least 1" page size holds because `Options.pageSize` is a `nat`. In the source, a negative `options.pageSize` is kept as it is (`-3 || 10` is `-3`), and so is a non-integer one.
- PagedArray.SetPageSize: requires the new page size to be at least 1. JavaScript would allow 0, a negative number or a non-number there, giving `Infinity` or `NaN` page counts.
- The model uses integers only. The source's floating-point page indices and counts and `isNaN` on non-numbers are not modelled: a numeric `pageIndex` in the snapshot is the presence of the key.
- Writing `pageIndex` or `allData` directly from outside, which the source allows because they are public observables, is not a separate operation. It is a plain field assignment with no reaction.
- The DOM side effects of the binding handler are out: the `ko.bindingHandlers[...].init` calls, `event.init` and `enable.update`. The model returns the arguments they would receive instead.
- `ko.utils.wrapAccessor` is a trivial closure and is not modelled.
- The module-loader boilerplate at the top of both files is not logic and is not modelled.
- CommandBinding.InitEventHandlers: requires distinct command names. JavaScript object keys are always distinct, and `Normalize` preserves distinctness.
