# rioc core, modelled in Dafny

This project models four sequential pieces of the rioc repository and proves properties about them:

- **The protocol layer chain** (`rioc/src/layer.rs`), in module `Layers`. A `LayerChain` holds a head (the first layer added) and a tail (the last layer added). Each layer has a strong link to the layer below it (`lo_layer`) and a weak link to the layer above it (`up_layer`). A request is dispatched to a layer's handler. The handler's `Direction` then sends the result up to the next layer's inbound handler, or down to the next layer's outbound handler. Layers live in an arena, a `seq<Layer>`, and links are arena indices. A weak link is dead when its index names no layer. Handlers are Dafny function values `Option<PayLoad> -> Result<LayerResult, string>`. Routing can bounce between two layers for ever, so dispatch takes a step bound (`fuel`, the number of handler calls allowed) and has an explicit `OutOfFuel` outcome.
- **The configuration document** (`iconfig/src/lib.rs`), in module `Config`. It covers the deep merge of TOML-like value trees (`merge_values` and `ApplicationConfig::merge`), lookup by dotted path (`get`), and the missing-prefix error of `resolve_prefix`.
- **The type- and name-keyed registry** (`src/containers/basic.rs`), in module `Containers`. `BasicContainer` is a class with two maps from key to a tagged instance (type, value).
- **The pure helpers of the scope code generator** (`imacro/src/provider.rs`), in module `Scopes`: `group_by`, `snake_to_pascal`, and the names given to the generated scope types and accessor methods.

Module `Text` holds `Split`, which models Rust's `str::split` on one separator character and its laws. Module `Wrappers` holds `Option` and `Result`.

Notes on the code, which the model follows:
- The head is the first layer added and the tail the last, as in the test at `rioc/src/layer.rs:356-358`.
- A handler failure comes back as a fixed message ("failed to handle inbound request" / "failed to handle outbound request"). The handler's own message is dropped.
- A dead upper link also gives the fixed inbound message, even during outbound dispatch. There is no separate error kind for it.
- The builder reports "inbound handler not set" before it checks the outbound handler.
- `get` splits the path the way `str::split` does. So the empty path is one empty key, and `resolve_prefix` treats the empty prefix apart.

Two facts the proofs bring out:
- `PingPongNeverFinishes`: two layers whose handlers keep sending a request back to each other never finish, whatever the fuel. The source's recursion on such a chain would not return.
- `ScopeTypeNamesCanCoincide`: `snake_to_pascal` maps both `ab` and `_ab` to `Ab`. So two scopes with different names can get the same type name.

## Model

| member | source | states |
|---|---|---|
| `Layers.LayerInbound` | rioc/src/layer.rs:72-104 | Inbound dispatch at a layer. A finished failure always carries one of the two fixed messages, never a handler's own message. |
| `Layers.LayerOutbound` | rioc/src/layer.rs:106-138 | Outbound dispatch at a layer, with the same guarantee about error messages. |
| `Layers.Route` | rioc/src/layer.rs:86-101 | The routing rule shared by both directions: go to the live upper layer (dead link: inbound error), go to the lower layer, or stop at the boundary with the handler's result. Errors keep the fixed messages. |
| `Layers.RoutingRule` | rioc/src/layer.rs:86-101 | An Inbound result gives exactly the live upper layer's inbound outcome, the inbound error on a dead upper link, or the result itself when there is no upper layer. An Outbound result gives exactly the lower layer's outbound outcome, or the result itself at the head. A neighbour's errors pass through unchanged. This lemma unfolds the definition one step; it documents the rule rather than proving anything deeper. |
| `Layers.HandlerErrorReplaced` | rioc/src/layer.rs:72-111 | A failing inbound handler yields "failed to handle inbound request"; a failing outbound handler yields "failed to handle outbound request". This lemma unfolds the definition one step; it documents the rule rather than proving anything deeper. |
| `Layers.DeadUpperLink` | rioc/src/layer.rs:88-127 | An Inbound result whose upper link is dead fails with the inbound message, from either handler. |
| `Layers.InboundFuelMonotone` | rioc/src/layer.rs:86-103 | Once inbound dispatch finishes, more fuel gives the same result: the bound cuts runs short and never changes them. |
| `Layers.OutboundFuelMonotone` | rioc/src/layer.rs:120-137 | The same for outbound dispatch. |
| `Layers.RouteFuelMonotone` | rioc/src/layer.rs:86-101 | The same for the routing step. |
| `Layers.Link` | rioc/src/layer.rs:197-214 | The arena after one `add_layer`. The new layer is appended with its handlers and its lower link on the old tail. The old tail's upper link names the new layer. A first layer has both links cleared. No other layer or link changes, and in-range lower links stay in range. |
| `Layers.AssembleLinks` | rioc/src/layer.rs:197-214 | After adding L0..Ln-1, layer i keeps its handlers. Its lower link names i-1 (none for the head). Its upper link names i+1 (the tail's is cleared for a lone layer, otherwise left as it came). |
| `Layers.AssembleShaped` | rioc/src/layer.rs:172-214 | Layers as `build` makes them give a chain of exact shape. Every upper link is live, so the dead-link error cannot occur in such a chain. |
| `Layers.InboundAscends` | rioc/src/layer.rs:86-103 | When inbound handlers always route up, inbound dispatch from layer k runs the inbound handlers k..n-1 in order and returns the last one's result. It needs at most n-k hops. |
| `Layers.OutboundDescends` | rioc/src/layer.rs:120-137 | When outbound handlers always route down, outbound dispatch from layer k runs the outbound handlers k..0 in order and returns the head's result. It needs at most k+1 hops. |
| `Layers.InboundNeedsEveryHop` | rioc/src/layer.rs:86-95 | When every inbound handler succeeds upwards, fewer than n-k hops never finish, so the bound above is tight. |
| `Layers.PingPongNeverFinishes` | rioc/src/layer.rs:86-137 | A two-layer chain whose lower outbound handler routes up and whose upper inbound handler routes down runs out of any fuel. |
| `Layers.Bounce` | rioc/src/layer.rs:86-137 | The two dispatches that alternate on that chain both run out of any fuel. |
| `Layers.LayerBuilder.constructor` | rioc/src/layer.rs:147-152 | A new builder has neither handler. |
| `Layers.LayerBuilder.WithInboundFn` | rioc/src/layer.rs:154-161 | Sets the inbound handler and leaves the outbound one alone. |
| `Layers.LayerBuilder.WithOutboundFn` | rioc/src/layer.rs:163-170 | Sets the outbound handler and leaves the inbound one alone. |
| `Layers.LayerBuilder.Build` | rioc/src/layer.rs:172-181 | Fails with "inbound handler not set" when that handler is missing, checked first. Otherwise fails with "outbound handler not set" when that one is missing. Otherwise succeeds with both handlers and no links. |
| `Layers.LayerChain.constructor` | rioc/src/layer.rs:190-195 | A new chain has no layers, no head and no tail. |
| `Layers.LayerChain.AddLayer` | rioc/src/layer.rs:197-214 | The arena becomes `Link(old arena, layer)`. Head becomes the first layer or stays. The new layer becomes tail. The chain invariant holds. |
| `Layers.LayerChain.Head` | rioc/src/layer.rs:216-218 | Present exactly when a layer was added. It is the first layer added and has no lower link. |
| `Layers.LayerChain.Tail` | rioc/src/layer.rs:220-222 | Present exactly when a layer was added. It is the last layer added, and its lower link names the layer added before it. |
| `Layers.LayerChain.HandleInbound` | rioc/src/layer.rs:224-232 | An empty chain fails with "No layers in the chain". Otherwise dispatch enters at the head. The chain is only read. |
| `Layers.LayerChain.HandleOutbound` | rioc/src/layer.rs:234-241 | An empty chain fails with "No layers in the chain". Otherwise dispatch enters at the tail. The chain is only read. |
| `Layers.ChainDispatchKeepsDirection` | rioc/src/layer.rs:224-241 | For built layers whose handlers keep their direction, as in the tests: chain inbound is the head-to-tail run of inbound handlers, chain outbound is the tail-to-head run of outbound handlers, both within n hops. |
| `Layers.TwoLayerChain` | rioc/src/layer.rs:356-358 | Adding two built layers L0 then L1 to a new chain gives head L0, tail L1, the exact two-layer shape, and each layer's handlers. |
| `Layers.TwoLayerRedirect` | rioc/src/layer.rs:86-137 | In a two-layer chain where the head routes up, the tail routes back down and the head's outbound handler then answers Outbound, chain inbound finishes after three hops with the head's outbound result, not the tail's. |
| `Text.Split` | iconfig/src/lib.rs:94 | `str::split` on one character: at least one piece, and no piece contains the separator. |
| `Text.JoinSplit` | iconfig/src/lib.rs:94 | Joining the pieces with the separator gives the string back. |
| `Text.SplitJoin` | iconfig/src/lib.rs:94 | Splitting a join of separator-free pieces gives the pieces back. |
| `Text.SplitAppend` | iconfig/src/lib.rs:93-100 | Splitting `p + sep + q` gives the pieces of `p` followed by those of `q`. |
| `Text.SplitNoSep` | imacro/src/provider.rs:478 | A string without the separator is one piece. |
| `Text.SplitCount` | imacro/src/provider.rs:478 | There is one more piece than separators. |
| `Config.MergeTables` | iconfig/src/lib.rs:144-162 | Merging two tables gives the union of their keys. A key of one side keeps that side's value. A key of both gets the merge of the two values. |
| `Config.MergeArrays` | iconfig/src/lib.rs:165-168 | Merging two arrays gives `a ++ b`: the lengths add, `a` comes first, then `b`. |
| `Config.MergeOtherwise` | iconfig/src/lib.rs:171 | Every other pairing, type mismatches included, yields exactly the right-hand value. This lemma unfolds the definition one step; it documents the rule rather than proving anything deeper. |
| `Config.Merged` | iconfig/src/lib.rs:141-173 | The deep merge always has the kind (scalar, array or table) of the later value, and a later scalar always wins. |
| `Config.MergeValues` | iconfig/src/lib.rs:141-173 | The two-loop table merge (copy `a`, then merge or insert each key of `b`), the array extension and the fallback compute the deep merge `Merged(a, b)`. |
| `Config.LookupAppend` | iconfig/src/lib.rs:92-101 | Lookup along `s1 ++ s2` is lookup along `s2` from the value `s1` reaches, and None if `s1` reaches nothing. |
| `Config.GetCompose` | iconfig/src/lib.rs:92-101 | The value at `p.q` is the value at `q` below the value at `p`, and None if `p` is missing. |
| `Config.MergeOverrides` | iconfig/src/lib.rs:76-84 | A scalar that the later document holds at a path is what the merge holds there. |
| `Config.MergeKeeps` | iconfig/src/lib.rs:141-173 | Along a path that the later document does not have, the merge holds what the earlier document holds. |
| `Config.DocumentedHost` | iconfig/src/lib.rs:19-35 | The documented merge keeps `server.host = "localhost"` from the base. |
| `Config.DocumentedPort` | iconfig/src/lib.rs:19-35 | The documented merge gives `server.port = 9090` from the overlay. |
| `Config.DocumentedUrl` | iconfig/src/lib.rs:253-273 | The merge test gets `database.url` from the overlay. |
| `Config.ApplicationConfig.Merge` | iconfig/src/lib.rs:82-84 | The document becomes the deep merge of the other document over the old one. Nothing else changes. |
| `Config.Child` | iconfig/src/lib.rs:95 | toml's `Value::get` with a string key: there is a child exactly when the value is a table holding the key, and the child is a part of the value. |
| `Config.LookupOne` | iconfig/src/lib.rs:94-97 | Lookup along one segment is one `get`. |
| `Config.ValueAt` | iconfig/src/lib.rs:92-101 | The value at a dotted path. A scalar or an array has nothing at any path, not even the empty one. A path without `.` is a single `get`. |
| `Config.ApplicationConfig.Get` | iconfig/src/lib.rs:92-101 | The loop, one segment at a time, returns the value at the dotted path. It returns None as soon as a segment is missing. |
| `Config.ApplicationConfig.ResolvePrefix` | iconfig/src/lib.rs:120-128 | The empty prefix selects the whole document. A non-empty prefix that `get` cannot find fails with "No config found for " followed by the prefix. Otherwise the value found is selected. |
| `Containers.Downcast` | src/containers/basic.rs:24-28 | The downcast succeeds exactly when the stored type is the requested one, and gives the stored value. |
| `Containers.Find` | src/containers/basic.rs:23-37 | Gives a value exactly when the key is present and its instance has the requested type. |
| `Containers.BasicContainer.constructor` | src/containers/basic.rs:12-17 | Both tables start empty, and the invariant holds. |
| `Containers.BasicContainer.Default` | src/containers/basic.rs:52-56 | A fresh, empty container. |
| `Containers.BasicContainer.Resolve` | src/containers/basic.rs:21-29 | Under the invariant, gives a value exactly when the type is registered. The value is the registered instance's, and the stored type matches the key, so the downcast never fails. |
| `Containers.BasicContainer.ResolveByName` | src/containers/basic.rs:31-38 | Gives a value exactly when the name is present and its instance has the requested type. |
| `Containers.BasicContainer.Register` | src/containers/basic.rs:40-44 | The instance goes under its own type, replacing any earlier one. The name table is untouched, and the invariant holds. |
| `Containers.BasicContainer.RegisterByName` | src/containers/basic.rs:46-49 | The instance goes under the name, replacing any earlier one. The type table is untouched. |
| `Containers.EmptyResolvesNothing` | src/containers/basic.rs:12-17 | An empty table resolves nothing, by type or by name. |
| `Containers.RegisterThenResolve` | src/containers/basic.rs:40-44 | After registration the provider's type resolves to the new instance. Other types resolve as before. |
| `Containers.RegistryScenario` | src/containers/basic.rs:78-88 | Before registering, nothing resolves. After registering, the provider resolves under its own type and under its name, and not under another type. |
| `Scopes.GroupBy` | imacro/src/provider.rs:463-474 | The loop that pushes each item onto its key's bucket computes `Grouped(items, key)`. |
| `Scopes.GroupedKeys` | imacro/src/provider.rs:469-472 | The bucket keys are exactly the keys of the items, and no bucket is empty. |
| `Scopes.GroupedBuckets` | imacro/src/provider.rs:469-472 | Each bucket is exactly the items of its key, in input order. A key no item has has no items. |
| `Scopes.GroupedSizes` | imacro/src/provider.rs:463-474 | The bucket sizes sum to the number of items. |
| `Scopes.TotalSizeRemove` | imacro/src/provider.rs:463-474 | The sum of bucket sizes is one bucket's size plus the sum over the rest. |
| `Scopes.Upper` | imacro/src/provider.rs:484 | Upper-casing never produces an underscore from another character. |
| `Scopes.UpperIdempotent` | imacro/src/provider.rs:484 | Upper-casing an upper-cased character changes nothing. |
| `Scopes.Capitalize` | imacro/src/provider.rs:480-486 | The per-word closure keeps the word's length, upper-cases its first character and leaves the rest as it is. The empty word stays empty. |
| `Scopes.CapitalizeIdempotent` | imacro/src/provider.rs:480-486 | Capitalizing a capitalized word changes nothing. |
| `Scopes.PascalCharsSegments` | imacro/src/provider.rs:477-489 | The segment-wise conversion (first character of each segment upper-cased) agrees with the character-wise one, from the start and from inside a segment. |
| `Scopes.SnakeToPascal` | imacro/src/provider.rs:477-489 | `snake_to_pascal` equals the character-wise conversion `PascalChars`: it drops every `_` and upper-cases the character at the start and each one right after a `_`. The output has no `_`, and its length is the input's minus its underscores, so empty segments contribute nothing. |
| `Scopes.PascalCharsShape` | imacro/src/provider.rs:478-487 | The character-wise conversion has no `_`, and its length is the input's minus its underscores. |
| `Scopes.ScopeTypeName` | imacro/src/provider.rs:393-396 | A scope type name is the struct name, then the PascalCase scope name (nothing for the unnamed scope), then `Scope`. |
| `Scopes.ScopeFnName` | imacro/src/provider.rs:397-400 | An accessor name ends in `scope`. A named scope's accessor is its name, then `_`, then `scope`; the unnamed scope's is just `scope`. |
| `Scopes.ScopeFnNamesDistinct` | imacro/src/provider.rs:397-400 | Distinct scope names, with the unnamed scope among them, get distinct accessor names (`n_scope`, `scope`). |
| `Scopes.ScopeTypeNamesCanCoincide` | imacro/src/provider.rs:393-396 | The scopes `ab` and `_ab` get the same type name. |
| `Scopes.ScopeNames` | imacro/src/provider.rs:389-400 | For each distinct scope name among the fields, there is exactly one group, with its type name and accessor name. |

## Left out

- `rioc/src/task.rs` (the task supervisor): coroutines, channels, the atomic cancel flag, panic capture and forced cancellation are concurrency, and their order depends on scheduling.
- `rioc/src/function.rs`: the `Service`/`Function` wrapper only applies a closure. Handlers are Dafny function values instead.
- `Layer::new` (rioc/src/layer.rs:60-70): the same as building with both handlers and no links, which is the `Layer` datatype constructor.
- Reference counting, `RefCell` borrows and `Drop for LayerChain`: this is memory management. Layers live in an arena that never frees, so a weak link dies only when its index names no layer of the arena. That cannot happen in an arena built by `AddLayer` from layers with no upper link, as `build` returns them (`AssembleShaped`). It can happen when a layer arrives with an upper link already set.
- Layers.LayerChain.AddLayer: each call appends a new arena node. So adding the same shared layer twice, or one layer to two chains, is not modelled. In the source that aliasing rewires shared links. Adding the current tail again links it to itself. Adding an earlier layer again, as in L0, L1, L0, makes L0 and L1 hold strong links to each other, a cycle that leaks, and outbound dispatch from L0 then never returns. Adding a layer of one chain to another either clears the links the first chain relies on, when the second chain is empty, or points the layer's lower link into the second chain. An incoming layer's upper-link index is kept as it came (see `AssembleLinks`), but it names nothing meaningful in the new arena. The source instead keeps a `Weak` that points at a layer of another structure.
- Layers.LayerInbound: the source recursion has no bound. The model answers `OutOfFuel` where the source would keep recursing. `InboundFuelMonotone` shows that once dispatch finishes, more fuel never changes its answer, so the bound only cuts runs short.
- Handlers are total, stateless functions. A handler that panics, like the test closures' `req.unwrap()` on a missing payload, is not modelled. A handler whose reply depends on earlier calls through captured `Cell`/`RefCell`/`Mutex` state is not modelled either, and neither are a handler's output effects, such as the tests' `println!`.
- Parsing and I/O in `iconfig`: `from_str`, `from_file`, `load`, `to_string_pretty` and `Display` are TOML parsing, file access and printing. `ApplicationConfig`'s constructor takes an already parsed value.
- Serde in `iconfig`: `jsonify`, `resolve` and the decode step of `resolve_prefix` are serde conversions, and the macro-generated `Provider` is code generation.
- Config.ApplicationConfig.ResolvePrefix: returns the selected value instead of decoding it into a record. The JSON and decode failures of the source are not modelled.
- TOML floats and datetimes are kept as opaque text. There is no arithmetic on them.
- `DashMap` concurrency and the threaded tests of `BasicContainer`: the maps are modelled sequentially, and a type identity is modelled as a string.
- The container argument of `Provider::instantiate` is not modelled. `instantiate` is a function value of the provider's own type, so the instance has the provider's type.
- Token generation in `imacro/src/provider.rs` (`quote!`, `syn`, `handle_provider`, the `gen_*` functions, the `Parse` impls, `parse_scope_field`) is code generation over a foreign syntax tree. The iteration order of the group map is not modelled either.
- Scopes.Upper: upper-cases ASCII letters only. Rust's `to_uppercase` can turn one non-ASCII character into several, and that expansion is not modelled. `SnakeToPascal`'s length law depends on this.
- Proc-macro and build plumbing (`derives/src/lib.rs`, `imacro/build.rs`), trait declarations without behaviour (`rioc/src/lib.rs`, `src/interfaces/`), and tests that only exercise macro output are not part of this model.
