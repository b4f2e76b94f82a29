# A Dafny model of five pieces of the C++ Actor Framework (CAF)

This project models five pieces of CAF and proves properties about them.

- **`config_value`**: the variant that holds configuration values. It can hold none, integer, boolean, real, timespan, uri, string, list or dictionary. Modelled here:
  - its type names and type IDs;
  - in-place conversion to a list and to a dictionary, and `append`;
  - default construction from a type ID;
  - the parser's dispatch;
  - the conversions `to_boolean`, `to_integer`, `to_list`, `to_dictionary` and `can_convert_to_dictionary`;
  - `to_string`.

  Dictionaries are sequences of entries. Sorted keys are not enforced by the type or by the parsers in `Codecs`: the lemmas that need them (`EmplaceSpec`, `ToListToDictionaryRoundTrip`) take `Sorted` as a hypothesis, and `emplace` and the list-to-dictionary conversion are proved to keep it. `dictionary::emplace` is modelled as an insertion that fails on a present key. The files are `config_value_data.dfy`, `config_value_print.dfy`, `config_value_convert.dfy` and `config_value_cell.dfy`.
- **`message`**: a fixed-length, type-erased tuple behind a copy-on-write pointer. Elements are pairs of a type ID and a value. The pointee is a class that carries the reference count. Writing through `get_mutable_as` unshares the data first. The file is `message.dfy`.
- **`remote_group_module`**: a two-level registry from origin node to group name to `group_tunnel`. Modelled here:
  - the one-way `stopped_` flag;
  - the two `get_impl` overloads;
  - `lookup`, `drop`, `connect` and `stop`.

  The middleman's lazy connect is recorded as a queue of requests. The file is `remote_group_module.dfy`.
- **The `transport_worker_dispatcher` `handle_data` test**: the dummy application and its numbering factory, the shared receive buffer, and the dispatcher as the test drives it. The file is `transport_worker_dispatcher.dfy`.
- **`tracing_data`**: the `inspect` envelope of a `tracing_data_ptr`.
  - Serializing writes a begin-object step, a `value` field with a presence flag, the payload when the pointer is set, and the closing steps. The `&&` chain stops at the first step the sink refuses.
  - Deserializing requires a context and a tracing context for a present payload. The file is `tracing_data.dfy`.

`common.dfy` holds the shared types:
- `Option`;
- the 64-bit integer range;
- bytes;
- the `sec` codes used here;
- node IDs and actor handles.

Foreign code is passed in as parameters:
- the escaping printer, the real and timespan printers, `uri::str`, the parsers and the real-to-integer check, bundled in `ConfigValues.Codecs` (integers are printed by the model itself);
- the meta-object table used by `default_construct`;
- the sink's acceptance of a step;
- the payload's serializer and the tracing context's deserializer.

`message` elements carry an arbitrary value type `V`, compared with `==`. `caf::uri`, `double` and `timespan` are opaque values.

## Model

| member | source | states |
|---|---|---|
| ConfigValues.TypeNameAndIdIdentifyAlternative | libcaf_core/src/config_value.cpp:148-171 | The type name and the type ID are equal exactly when the alternative is the same: both tables are indexed by the variant index and have no repetitions. |
| ConfigValues.Emplace | libcaf_core/src/config_value.cpp:384 | `dictionary::emplace`: it fails only when the key is already present; on success the dictionary has one more entry and the key looks up the new value, whether or not the input was sorted. |
| ConfigValues.EmplaceSpec | libcaf_core/src/config_value.cpp:377-385 | On a sorted dictionary, `emplace` fails exactly when the key is present. On success the result is sorted, has one more entry, gains exactly the key, stores the value under it and keeps every other key's value. |
| ConfigValuePrint.AppendRendered | libcaf_core/src/config_value.cpp:439-501 | The visitor loop appends exactly the textual form of the value to the string: lists in `[a, b]` form, dictionaries in `{k = v, ...}` form, strings escaped, `null` for none. |
| ConfigValuePrint.AppendList | libcaf_core/src/config_value.cpp:461-471 | The list case appends `[`, the elements separated by `, `, and `]`: exactly the printed list. |
| ConfigValuePrint.AppendDictionary | libcaf_core/src/config_value.cpp:481-494 | The dictionary case appends `{`, the entries separated by `, `, and `}`: exactly the printed dictionary. |
| ConfigValuePrint.AppendEntry | libcaf_core/src/config_value.cpp:474-492 | Appends a key rendered by `append_key`, then ` = ` and the value. |
| ConfigValuePrint.PrintToString | libcaf_core/src/config_value.cpp:505-513 | `to_string` returns the text of a top-level string unchanged and the visitor's rendering for every other value. |
| ConfigValuePrint.StringRawOnlyAtTopLevel | libcaf_core/src/config_value.cpp:442-444 | A string is printed raw at top level but escaped inside a list. |
| ConfigValuePrint.ScalarFormats | libcaf_core/src/config_value.cpp:451-471 | None prints as `null`, booleans as `true`/`false`, the empty list as `[]` and the empty dictionary as `{}`. |
| ConfigValuePrint.KeyQuotedUnlessAlnum | libcaf_core/src/config_value.cpp:474-489 | A one-entry dictionary prints as `{key = value}`. The key is written verbatim exactly when all its characters are alphanumeric, and escaped otherwise. |
| ConfigValuePrint.ListFormat | libcaf_core/src/config_value.cpp:461-471 | A list prints its first element after `[` and each further element after `, `. |
| ConfigValuePrint.AppendExamples | libcaf_core/test/config_value.cpp:914-921 | `42`, `[42]`, `[1, 2]` and `[1, 2, "foo"]` with the escaped string, as in the `append` test. |
| ConfigValueConvert.ToBoolean | libcaf_core/src/config_value.cpp:225-244 | Succeeds exactly for a boolean or the strings `true`/`false`, then with their truth value. Any other value fails with `conversion_failed`; for a non-string the message is `cannot convert <type> to boolean`. |
| ConfigValueConvert.ToInteger | libcaf_core/src/config_value.cpp:246-280 | Integers convert as they are. A real converts exactly when the real check admits it. A string that parses as an integer gives that integer. Otherwise a string converts exactly when it parses as a real that the check admits. All other alternatives fail with `conversion_failed`. |
| ConfigValueConvert.KeyValueList | libcaf_core/src/config_value.cpp:358-367 | A dictionary turns into a list of the same length whose `i`-th element is the two-element list of the `i`-th key, as a string, and its value. |
| ConfigValueConvert.ToTimespan | libcaf_core/src/config_value.cpp:306-327 | A timespan converts to itself and a string to what the timespan parser reads, exactly when it reads one. Every other alternative fails with `cannot convert <type> to timespan`, and every failure carries `conversion_failed`. |
| ConfigValueConvert.ToList | libcaf_core/src/config_value.cpp:329-370 | A list converts to itself and a dictionary to its key-value list. A string that parses as a list gives that list; otherwise one that parses as a dictionary gives that dictionary's key-value list; otherwise it fails. Everything else fails, and every failure carries `conversion_failed`. |
| ConfigValueConvert.ToDictionary | libcaf_core/src/config_value.cpp:372-410 | A dictionary converts to itself. A list converts exactly when every element lifts to a pair and the keys are distinct, else fails with the `key-value pair` message. A string that parses as a dictionary gives it; otherwise it converts exactly when it parses as a list that lifts, giving that list's dictionary. Every other alternative fails, and every failure carries `conversion_failed`. |
| ConfigValueConvert.LiftIntoSpec | libcaf_core/src/config_value.cpp:377-385 | The `all_of` fold over `lift` succeeds exactly when every element is a pair and the rendered keys are distinct and not already present. The result is sorted, holds one entry per element, each element's value under its key, and leaves earlier keys alone. |
| ConfigValueConvert.ToDictionaryOfListSpec | libcaf_core/src/config_value.cpp:375-393 | A list converts exactly when every element is a key-value pair with a distinct key. Otherwise it fails with the `key-value pair` message. On success the dictionary has one entry per element and every key comes from an element. |
| ConfigValueConvert.ToDictionaryOfList | libcaf_core/src/config_value.cpp:375-393 | The loop over the list with the `emplace` short-circuit computes exactly `to_dictionary` of the list. |
| ConfigValueConvert.ToListToDictionaryRoundTrip | libcaf_core/src/config_value.cpp:329-410 | For a dictionary, `to_list` followed by `to_dictionary` gives back the same dictionary. |
| ConfigValueConvert.DuplicateKeyFails | libcaf_core/src/config_value.cpp:379-392 | Two pairs with the same key make the list-to-dictionary conversion fail. |
| ConfigValueConvert.LiftExample | libcaf_core/test/config_value.cpp:749-760 | `[["one", 1], [2, "two"]]` lifts to the dictionary with `"2" = "two"` and `"one" = 1`; the integer key is rendered by `to_string`. |
| ConfigValueConvert.CanConvertToDictionary | libcaf_core/src/config_value.cpp:412-423 | True exactly for a dictionary or a string that converts. True implies that `to_dictionary` succeeds. |
| ConfigValueConvert.ListLiftsButIsNotReported | libcaf_core/src/config_value.cpp:412-423 | A list of pairs converts with `to_dictionary`, yet `can_convert_to_dictionary` reports false for it. |
| ConfigValueCells.ConvertToListProperties | libcaf_core/src/config_value.cpp:113-124 | Converting to a list is idempotent and leaves a list as it is. Null becomes the empty list and any other value the one-element list of itself. |
| ConfigValueCells.AsDictionaryProperties | libcaf_core/src/config_value.cpp:131-141 | `as_dictionary` keeps a dictionary, replaces a convertible value by its conversion and anything else by the empty dictionary. It is idempotent. |
| ConfigValueCells.AsDictionaryOfList | libcaf_core/src/config_value.cpp:131-141 | A list becomes the dictionary of its pairs when they lift, and the empty dictionary otherwise. |
| ConfigValueCells.DefaultValueProperties | libcaf_core/src/config_value.cpp:173-205 | The built-in type IDs have a default exactly when they have a storage alternative, and that default has the storage type's ID. Integer IDs give 0, `bool` gives false and `std::string` the empty string. |
| ConfigValueCells.ConfigValueCell.ConvertToList | libcaf_core/src/config_value.cpp:113-124 | The value becomes a list. A list stays as it is, null becomes empty and anything else becomes the one-element list of the old value. |
| ConfigValueCells.ConfigValueCell.AsList | libcaf_core/src/config_value.cpp:126-129 | Converts in place and returns the list now stored. |
| ConfigValueCells.ConfigValueCell.Append | libcaf_core/src/config_value.cpp:143-146 | After converting to a list, `x` is the last element and the earlier elements are the old list. |
| ConfigValueCells.ConfigValueCell.AsDictionary | libcaf_core/src/config_value.cpp:131-141 | The stored value becomes the dictionary returned: the old one, its conversion, or the empty dictionary when the conversion fails. |
| ConfigValueCells.ConfigValueCell.DefaultConstruct | libcaf_core/src/config_value.cpp:173-223 | Built-in IDs store their default and return no error. An unknown ID returns `unknown_type` and leaves the value alone. A registered type stores what its meta object writes and returns the code it reports. |
| ConfigValueCells.ConvertAndAppendExamples | libcaf_core/test/config_value.cpp:903-918 | `42`, then `[42]` twice after converting twice, then `[1, 2]` after an append, as in the `convert_to_list` and `append` tests. |
| ConfigValueCells.FirstNonSpace | libcaf_core/src/config_value.cpp:81-84 | The index of the first non-blank character: everything before it is blank. |
| ConfigValueCells.Parse | libcaf_core/src/config_value.cpp:75-105 | The blank-skipping loop followed by the dispatch computes the parse result given by `ParseSpec`. |
| ConfigValueCells.ParseBlank | libcaf_core/src/config_value.cpp:79-84 | Empty or all-blank input is `unexpected_eof`. |
| ConfigValueCells.ParseFallback | libcaf_core/src/config_value.cpp:86-104 | A successful read wins. Otherwise input that starts with a bracket, a brace, a quote or a digit reports the reader's error, and any other input becomes the whole text as a string. |
| ConfigValueCells.ParseKeepsLeadingBlanks | libcaf_core/src/config_value.cpp:95-104 | The string fallback keeps the leading blanks, and a broken list reports the reader's error. |
| Messages.MatchesPrefix | libcaf_core/caf/message.hpp:185-196 | The `&&` fold of `matches_at` holds exactly when every position matches: a wildcard, or the same type ID and an equal value. |
| Messages.Message.Share | libcaf_core/caf/message.hpp:54 | A copy shares the data, has the same contents and adds one reference. |
| Messages.Message.Types | libcaf_core/caf/message.hpp:62-64 | Lists the elements' type IDs in order, none for a null pointer. |
| Messages.Message.Size | libcaf_core/caf/message.hpp:66-68 | The number of type IDs, which is the number of elements. |
| Messages.Message.Empty | libcaf_core/caf/message.hpp:70-72 | True exactly when there are no elements. |
| Messages.Message.MatchElements | libcaf_core/caf/message.hpp:74-77 | True exactly when the type list equals `ts`, position by position. |
| Messages.Message.TypeAt | libcaf_core/caf/message.hpp:139-142 | The type ID of the element at `index`. |
| Messages.Message.MatchElement | libcaf_core/caf/message.hpp:146-149 | True exactly when the element at `index` has type `t`. |
| Messages.Message.Matches | libcaf_core/caf/message.hpp:117-123 | True exactly when each position holds a wildcard, or an element of the given type equal to the given value. |
| Messages.Message.Adopt | libcaf_core/caf/message.hpp:46 | `message(data_ptr)` takes over the reference the pointer holds: the message holds that pointer and is valid, without a change to the count. |
| Messages.Message.IsSet | libcaf_core/caf/message.hpp:109-115 | `operator bool` is true exactly when the message has data; a message without data has size 0 and no types. |
| Messages.Message.Swap | libcaf_core/caf/message.hpp:169-171 | The two messages exchange their pointers. |
| Messages.Message.Reset | libcaf_core/caf/message.hpp:173-176 | The message takes the new pointer and its contents and stays valid. The new data gains a reference when `add_ref` is set and the old data loses one, including when both are the same. Neither block's elements change, so other holders keep their contents. |
| Messages.ResetSharedExample | libcaf_core/caf/message.hpp:173-176 | Resetting one of two messages that share a block leaves the other's contents unchanged, with one reference left. |
| Messages.Message.ForceUnshare | libcaf_core/caf/message.hpp:178-182 | The contents stay the same. Shared data is copied into a fresh block with one reference, and the old block loses a reference and keeps its elements. Unshared data is left untouched. |
| Messages.Message.SetAt | libcaf_core/caf/message.hpp:159-165 | Overwrites one element and keeps the message valid. Shared data is first copied into a fresh block with one reference, and the old block loses one reference while its elements, which other holders see, stay as they were. Unshared data is written in place. |
| Messages.MakeEmptyMessage | libcaf_core/caf/message.hpp:203-206 | The default message has no data, no types, size 0 and is empty. |
| Messages.MakeMessage | libcaf_core/caf/message.hpp:208-224 | A fresh block with the given elements and one reference, adopted without adding a reference. |
| Messages.CopyOnWriteExample | libcaf_core/caf/message.hpp:36-38 | Writing through a copy leaves the original's element unchanged. |
| Messages.WriteInPlaceExample | libcaf_core/caf/message.hpp:161-165 | The sole owner writes into its own block without a copy. |
| RemoteGroups.GroupTunnel.Connect | libcaf_io/caf/detail/remote_group_module.hpp:69-70 | A tunnel connects only once and never after it stopped. |
| RemoteGroups.RemoteGroupModule.Lookup | libcaf_io/caf/detail/remote_group_module.hpp:56-57 | Returns the registered tunnel for the pair, or null exactly when there is none. A registered tunnel carries that origin and name. |
| RemoteGroups.RemoteGroupModule.GetImplOrigin | libcaf_io/caf/detail/remote_group_module.hpp:48-51 | Returns the registered tunnel. Otherwise it registers a fresh unconnected tunnel and asks for one lazy connect. It returns null and changes nothing once stopped. |
| RemoteGroups.RemoteGroupModule.GetImplIntermediary | libcaf_io/caf/detail/remote_group_module.hpp:53-54 | Returns the registered tunnel, or else registers a fresh tunnel connected to the intermediary under the intermediary's node. It never asks for a connect and returns null once stopped. |
| RemoteGroups.RemoteGroupModule.Drop | libcaf_io/caf/detail/remote_group_module.hpp:66-67 | Stops the instance. It removes the entry only while the entry is this very instance; every other key keeps its tunnel. |
| RemoteGroups.RemoteGroupModule.Connect | libcaf_io/caf/detail/remote_group_module.hpp:69-70 | Connects the instance only while the module runs, the instance is still registered, not stopped and unconnected. In every other case its state is unchanged. The registry never changes. |
| RemoteGroups.GroupTunnel.Stop | libcaf_io/caf/detail/remote_group_module.hpp:66-67 | The tunnel's stop, which `drop` and the module's `stop` call: the tunnel is stopped and its connection state is unchanged. |
| RemoteGroups.RemoteGroupModule.Stop | libcaf_io/caf/detail/remote_group_module.hpp:44 | Sets the flag, stops every registered tunnel without changing its state, and empties the registry. A second call does nothing. |
| RemoteGroups.StopAll | libcaf_io/caf/detail/remote_group_module.hpp:44 | Every tunnel of the set ends up stopped with its connection state unchanged. |
| RemoteGroups.AtMostOneKeyPerTunnel | libcaf_io/caf/detail/remote_group_module.hpp:38-40 | A registered tunnel is filed under exactly one origin and name. |
| RemoteGroups.SameTunnelTwice | libcaf_io/caf/detail/remote_group_module.hpp:48-54 | Two `get_impl` calls and one through an intermediary on that node give the same tunnel. Only the first asks for a connect. |
| RemoteGroups.NoTunnelsAfterStop | libcaf_io/caf/detail/remote_group_module.hpp:44-54 | After `stop`, both `get_impl` overloads give null and the registry stays empty. |
| TransportWorkers.DummyApplication.Init | libcaf_net/test/transport_worker_dispatcher.cpp:45-48 | `init` always succeeds. |
| TransportWorkers.DummyApplication.HandleData | libcaf_net/test/transport_worker_dispatcher.cpp:55-58 | Appends the application's id to the shared buffer, whatever the data. |
| TransportWorkers.DummyApplication.WriteMessage | libcaf_net/test/transport_worker_dispatcher.cpp:50-53 | Appends the application's id to the shared buffer, whatever the message. |
| TransportWorkers.DummyApplicationFactory.Make | libcaf_net/test/transport_worker_dispatcher.cpp:94-96 | The new application shares the buffer and gets the counter's old value. The 8-bit counter increments modulo 256. |
| TransportWorkers.TransportWorkerDispatcher.EnsureWorker | libcaf_net/test/transport_worker_dispatcher.cpp:143-149 | The lookup-or-create step both dispatcher operations share: a registered endpoint keeps its worker and the factory count; an unseen one gets a fresh initialised worker whose id is the factory's counter, added under that endpoint only. |
| TransportWorkers.TransportWorkerDispatcher.AddNewWorker | libcaf_net/test/transport_worker_dispatcher.cpp:143-149 | Idempotent per endpoint. A new endpoint gets a fresh worker numbered by the factory, and its node is recorded unless already present. |
| TransportWorkers.TransportWorkerDispatcher.HandleData | libcaf_net/test/transport_worker_dispatcher.cpp:171-172 | Routes to the worker of the endpoint, created on first contact, which appends its id. No other worker or node entry changes. |
| TransportWorkers.AddNewWorkers | libcaf_net/test/transport_worker_dispatcher.cpp:143-149 | On a fresh dispatcher with distinct endpoints, peer `i` gets the worker with id `i`. |
| TransportWorkers.RegisterNext | libcaf_net/test/transport_worker_dispatcher.cpp:146-148 | Registering the next distinct peer gives it the worker whose id is its position, and the peers before it keep theirs. |
| TransportWorkers.CheckPeer | libcaf_net/test/transport_worker_dispatcher.cpp:171-175 | For a registered peer `i`, the buffer holds exactly `[i]`, and the registration and the empty buffer stay. |
| TransportWorkers.CheckHandleData | libcaf_net/test/transport_worker_dispatcher.cpp:171-175 | The buffer then holds the routed worker's id after what it held before, and it is cleared afterwards. |
| TransportWorkers.TestDataDistinct | libcaf_net/test/transport_worker_dispatcher.cpp:151-156 | The four fixture peers have distinct endpoints and worker ids 0 to 3. |
| TransportWorkers.HandleDataTest | libcaf_net/test/transport_worker_dispatcher.cpp:194-205 | Each of the four checks sees exactly the one byte `[i]` for peer `i`. |
| TransportWorkers.DistinctPeersDistinctWorkers | libcaf_net/test/transport_worker_dispatcher.cpp:171-175 | Two unseen endpoints get different workers with consecutive ids, and each call reaches only its own worker. |
| TracingData.Serialize | libcaf_core/src/tracing_data.cpp:42-54 | `serialize_impl`: when every step succeeds, the sink holds what it held followed by the envelope, with the payload's tokens exactly when the pointer is set. |
| TracingData.Deserialize | libcaf_core/src/tracing_data.cpp:57-79 | `deserialize_impl`: success needs the object and the `value` field at the start and ends right after the closing field and object. A missing or absent field leaves `x` as it was. The function's own errors (`no_context` exactly when there is no context, else `no_tracing_context`) fail with the shared message, at the position after the field, with `x` unchanged. |
| TracingData.PutAllSpec | libcaf_core/src/tracing_data.cpp:44-53 | A chain of sink calls appends all its tokens when every step succeeds. Otherwise it appends the tokens before the first refused step, and nothing after it runs. |
| TracingData.SerializeIsFrame | libcaf_core/src/tracing_data.cpp:42-54 | Both branches of `serialize_impl` write the envelope token by token and stop at the first refusal. |
| TracingData.SerializeOutput | libcaf_core/src/tracing_data.cpp:42-54 | On success, null writes begin object, `value` absent, end field, end object. A payload writes begin object, `value` present, the payload, end field, end object. |
| TracingData.AbsentFieldIgnoresContext | libcaf_core/src/tracing_data.cpp:58-63 | An absent field needs no context, leaves `x` unchanged and succeeds exactly when the envelope closes. |
| TracingData.PresentFieldErrors | libcaf_core/src/tracing_data.cpp:64-75 | A present field without a context fails with `no_context`, and without a tracing context with `no_tracing_context`. Both carry the same message and leave `x` unchanged. |
| TracingData.RoundTripNull | libcaf_core/src/tracing_data.cpp:42-63 | Reading back the envelope of a null pointer succeeds in any context, consumes four tokens and leaves `x` as it was. |
| TracingData.RoundTripPresent | libcaf_core/src/tracing_data.cpp:49-78 | With a tracing context that inverts the payload writer, reading back a written payload gives it back and consumes the whole envelope. |

## Left out

- Floating point: `to_real` (config_value.cpp:282-304), the real case of `to_integer` and its bounds are not part of this model. The real-to-integer check is the foreign function `Codecs.realToInteger`, and reals are opaque bit patterns.
- The timespan parser used by `to_timespan` is the foreign function `Codecs.parseTimespan`.
- The parsers and printers live in other files, which are not part of this model. They are parameters in `Codecs`, and `read_config_value` is a parameter of `Parse`:
  - `detail::parse`, `read_config_value`, `print_escaped`;
  - `detail::print` for reals and timespans (`Codecs.printReal`, `Codecs.printTimespan`);
  - `uri::str`.
- ConfigValueCells.ConfigValueCell.DefaultConstruct: one foreign function `meta` covers three steps. They are the meta object's default construction, its save through `config_value_writer`, and the mapping of a non-`sec` error category to `conversion_failed`. That function yields the `sec` code and the value written.
- Integers are printed by the model's own decimal `ConfigValuePrint.IntToString`, and booleans as the literals `true`/`false`; these are not parameters. `AppendExamples` and `LiftExample` rely on that decimal printer.
- `operator<`, `operator==`, `to_string(settings)` and `operator<<` of `config_value` are not modelled. The first two delegate to the variant's own operators. `operator<<` writes `to_string(x)` to the stream (config_value.cpp:522-524), which is `PrintToString` plus stream I/O. `to_string(settings)` (config_value.cpp:515-520) applies this file's visitor to the settings dictionary, so its text is `Render` of that dictionary, which `AppendDictionary` covers; it has no member of its own.
- ConfigValueCells.ConfigValueCell.AsList and ConfigValueCells.ConfigValueCell.AsDictionary return a copy of the stored list or dictionary. The source returns a reference into `data_` (config_value.cpp:126-141), so a caller's writes through it change the value; those writes through the returned reference are not modelled.
- `ConfigValueConvert.ToInteger`: the real branch is stated only as "converts exactly when the foreign check admits" and does not model the 64-bit bounds check itself.
- `message`: the following are not modelled:
  - `save`/`load` and `to_string`, which are defined in other files;
  - `inspect` (message.hpp:241-252), because serialization of messages is outside this model;
  - `make_message_from_tuple` (message.hpp:226-238), which only forwards the tuple's elements to `make_message`;
  - `get_as` (message.hpp:153-157), whose value is read in the model as `Contents()[i].value`, as `Matches` does;
  - the pointer accessors `data`/`ptr`/`cdata`/`cptr` (message.hpp:79-107), the memory layout, the `malloc` failure of `make_message` (message.hpp:217-219) and destruction when the count drops to zero, because memory is outside the value model.
- Messages.Message.Adopt: `refCount` is trusted to count the holders of a block. The constructor takes a raw block and requires only a count of at least one; adopting the same block into two messages without a reference each is not ruled out, and then a write through one would show through the other. `MakeMessage`, `Share` and `Reset` keep the count honest.
- The move constructor and the assignments of `message` are not modelled separately: they amount to `Swap` and `Reset`.
- `remote_group_module.cpp` and `group_tunnel.hpp` are not part of this model. The following are modelled from the declarations and comments in remote_group_module.hpp:
  - the bodies of `stop`, the `get_impl` overloads, `drop` and `connect`;
  - the tunnel's own connect and stop.

  These choices are modelling decisions:
  - a stopped module answers null and has an empty registry;
  - a tunnel connects only once and not after it stopped.
- The mutex of `remote_group_module` is not modelled: each method runs as one atomic step. The following are not modelled either:
  - `get(group_name)`, which parses a group locator;
  - `make_callback`;
  - the middleman itself, whose lazy connect is the request queue `connectRequests`.
- transport_worker_dispatcher.hpp is not part of this model. The dispatcher is modelled only as the `handle_data` test uses it:
  - `add_new_worker` registers a worker under a node and an endpoint;
  - `handle_data` routes by endpoint and creates a worker on first contact.
- The dispatcher's `write_message`, `resolve`, `timeout` and `handle_error` are not modelled, nor is the commented-out `write_message` test (transport_worker_dispatcher.cpp:207-219). The dummy application's `resolve`, `timeout`, `handle_error` and `serialize` do nothing and are not modelled.
- The `_ep` and `_u` literal parsers and `make_node_id` are not modelled: the fixture's endpoints and node IDs are given directly.
- `tracing_data`: the tracing payload's own serializer and the tracing context's deserializer are parameters. The sink's and the source's own checks of type IDs and names are reduced to token equality.
- Decoding the envelope of a null pointer leaves a previously set `x` as it was (tracing_data.cpp:62-63). The model states that behaviour as it is.
