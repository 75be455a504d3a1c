# Layered configuration of could-you

could-you is a command-line tool. It reads its configuration from two JSON
layers: a global file and a project-local file. The local document is
deep-merged over the global one. The merged document is then parsed and
validated against the project root into a `Config`:

- the system prompt;
- a free-form `llm` object;
- the MCP servers, each with a command, arguments, an `enabled` flag and a set of disabled tools;
- environment variables;
- the editor;
- the root directory.

This project models that pipeline in Dafny and proves what the repository's
test suite (`tests/test_config.py`) asserts about it. The model also proves
general properties that the test assertions are instances of.

The files are:

- `wrappers.dfy` (`Wrappers`): `Option` and `Result`.
- `json.dfy` (`JsonValue`): JSON values (RFC 8259). An object is an ordered
  list of members, as a Python dict keeps insertion order. It also holds
  member lookup, paths into a document, and "well-formed": unique keys at
  every level, as in a dict.
- `merge.dfy` (`JsonMerge`): the deep merge. Objects merge key by key,
  recursively. The local value wins on a shared key. Arrays and scalars are
  replaced wholesale. Base keys keep their order, and local-only keys are
  appended in local order.
- `config.dfy` (`CouldYouConfig`): `Config`, `ServerConfig` and the
  validation errors. It holds the parser `_parse_from_json` as
  `ParseFromJson`, with `ParseServer` for one `mcpServers` entry, and the
  text of a missing-keys error. It also holds an encoder from `Config` back
  to a document, used only to state the round trip.
- `loader.dfy` (`ConfigLoader`): `_load_raw_json` as `LoadRaw`, where an
  absent layer is the empty document, and the composed `Load` (read both
  layers, merge, parse).
- `scenarios.dfy` (`ConfigScenarios`): the concrete documents of the test
  suite, with what each test asserts about them.

Modelling decisions:

- The implementation module `could_you/config.py` is not part of this
  model. The parser is reconstructed from what the tests assert about it.
  Wherever the tests leave behaviour open, the choices are these:
  - A JSON `null` on an optional field reads as an absent field, as
    `dict.get` returns `None` for both.
  - A value of the wrong JSON type (a numeric `command`, a string where an
    array is expected) is rejected with a `WrongType` error. An untyped
    dataclass would carry it through. The `Config` here is typed, so it
    cannot hold such a value.
  - Server entries are validated before the other fields. The first bad
    entry, in document order, decides the error.
  - A missing-keys error lists the keys the entry lacks, in the order
    `command`, `args`.
- `Config.llm` is kept as the object's members. `Config.env` is a
  `map<string, string>`, and each server's `disabledTools` is a
  `set<string>`. On the wire, `disabledTools` is an array that may repeat a
  name.
- The third-party `jsonmerge.merge` is modelled by the behaviour the tests
  rely on: two objects merge key by key, and an array or scalar override
  replaces the base value. The tests never merge an object over a
  non-object; there the model also gives the override, so that merging
  never fails (see "## Left out").

## Model

| member | source | states |
|---|---|---|
| JsonMerge.Merge | tests/test_config.py:168 | the merge of the global document (base) and the local document (override): the result is an object exactly when the override is one, and an array or scalar override is the result unchanged; its key-by-key meaning is stated by `MergeLookup` and its path-by-path meaning by `MergeAtPath` |
| JsonMerge.MergeLookup | tests/test_config.py:152-188 | the merged object has a key exactly when either layer has it; a key only the global layer has keeps the global value, a key only the local layer has takes the local value, and a shared key holds the merge of the two values |
| JsonMerge.MergeKeyOrder | tests/test_config.py:152-188 | the merged object lists the global keys first, in the global order, followed by exactly the keys only the local layer has |
| JsonMerge.MergeAtPath | tests/test_config.py:72-103 | at every path, the merged document shows the global value where the local layer is silent, and otherwise the local value (merged with the global value when both are objects) |
| JsonMerge.LocalLeafWins | tests/test_config.py:96-100 | a non-object value the local layer sets at a path, an array included, is the merged value there: no concatenation and no element merge |
| JsonMerge.GlobalFallback | tests/test_config.py:101-103 | at a path the local layer is silent on, the merged document holds the global value |
| JsonMerge.MergeIdempotent | tests/test_config.py:168 | merging a well-formed document with itself gives that document |
| JsonMerge.MergeEmptyOverride | tests/test_config.py:123-126 | merging an empty local document over a global object leaves the global object |
| JsonMerge.MergeEmptyBase | tests/test_config.py:123-126 | merging a local object over an empty global document gives the local object |
| JsonMerge.MergeWellFormed | tests/test_config.py:168 | merging two documents with unique keys gives a document with unique keys at every level |
| ConfigLoader.LoadRaw | tests/test_config.py:106-126 | an absent layer loads as the empty object rather than an error, and a present layer loads as its own document |
| ConfigLoader.Load | tests/test_config.py:123-126 | the composed load (each layer read, the local merged over the global, the result parsed): a successful load keeps the caller's root; with no layers it is the empty configuration (`NoLayers`), and its string settings follow local-over-global precedence (`ScalarSettingsPrecedence`) |
| ConfigLoader.NoLayers | tests/test_config.py:123-126 | with neither layer present, loading succeeds with nothing set and the caller's root |
| ConfigLoader.OnlyGlobalLayer | tests/test_config.py:123-126 | with the local layer absent, loading gives the global layer's own parse |
| ConfigLoader.OnlyLocalLayer | tests/test_config.py:123-126 | with the global layer absent, loading gives the local layer's own parse |
| ConfigLoader.MergedScalar | tests/test_config.py:184-188 | a merged top-level field that is not an object is the local field when the local layer has the key, and the global field otherwise |
| ConfigLoader.ScalarSettingsPrecedence | tests/test_config.py:184-188 | after a successful load, `prompt` and `editor` come from the local layer when it sets them and from the global layer otherwise |
| ConfigLoader.ServerFieldsMergeIndependently | tests/test_config.py:72-103 | inside one server entry, a field the local entry omits keeps the global value, and a field it sets to a non-object is the local value |
| CouldYouConfig.ParseServer | tests/test_config.py:10-69 | a non-object entry fails; an entry lacking `command` or `args` fails with the error naming the server and exactly the missing keys; on success the name is the entry's key, command and args are the wire values, `enabled` is false exactly when the entry says `false`, and a tool is disabled exactly when it is listed under `disabledTools` |
| CouldYouConfig.MissingKeys | tests/test_config.py:191-203 | a key is reported missing exactly when it is `command` or `args` and the entry lacks it |
| CouldYouConfig.ParseServers | tests/test_config.py:25-27 | the servers parse exactly when every entry does, one server per entry in document order; otherwise the error is that of the first entry that fails |
| CouldYouConfig.StringMap | tests/test_config.py:147 | the `env` object is read exactly when all its values are strings, giving a map with the object's keys and values |
| CouldYouConfig.StringArray | tests/test_config.py:17 | an array is read as strings exactly when every item is a string, and the strings written back give the array |
| CouldYouConfig.ParseFromJson | tests/test_config.py:129-149 | a non-object document fails; on success the root is the caller's, `prompt` and `editor` are the document's strings, `llm` is its object (empty if absent), each server is the parse of the entry at the same position, and `env` holds the object's entries; a failing server entry fails the parse |
| CouldYouConfig.UniqueServerNames | tests/test_config.py:143-144 | in a configuration parsed from a document with unique keys, no two servers have the same name, since each name is the key of its `mcpServers` entry |
| CouldYouConfig.ParseEmptyDocument | tests/test_config.py:206-217 | the empty document parses to no prompt, empty `llm`, no servers, empty `env`, no editor and the caller's root |
| CouldYouConfig.FirstMissingKeysReported | tests/test_config.py:191-203 | when the first bad server entry lacks required keys, the whole parse fails with that server's name and exactly the keys it lacks |
| CouldYouConfig.MissingKeysMessage | tests/test_config.py:202-203 | the text of a missing-keys error contains "missing required keys", the server's name and every missing key |
| CouldYouConfig.ParseWellTypedServer | tests/test_config.py:10-69 | an entry with a string command, a string array of args, an optional boolean `enabled` and an optional string array `disabledTools` parses to exactly those values, with `enabled` defaulting to true and the tools becoming a set |
| CouldYouConfig.ParseCompleteServer | tests/test_config.py:49-69 | an entry that sets all four server keys parses field for field, the tool array becoming the set of its names |
| CouldYouConfig.ServerRoundTrip | tests/test_config.py:10-69 | every server configuration is the parse of its own encoding, so the wire array and the model set hold the same tools |
| CouldYouConfig.EnvRoundTrip | tests/test_config.py:147 | every environment map is read back from its encoding |
| CouldYouConfig.ParseWellTypedFields | tests/test_config.py:129-149 | a document whose fields have the wire form of given values parses to a configuration holding exactly those values |
| CouldYouConfig.ParseEncodeRoundTrip | tests/test_config.py:129-149 | every configuration is the parse of its encoding with its own root: the parse carries each field through unchanged |
| CouldYouConfig.ServersRoundTrip | tests/test_config.py:143-146 | every list of servers is the parse of its encoding, in order |
| ConfigScenarios.DisabledToolsBecomeSet | tests/test_config.py:10-28 | the test's document parses to one server named "test-server" whose disabled tools are the set {"tool1", "tool2"} |
| ConfigScenarios.EnabledFalseCarried | tests/test_config.py:31-46 | `enabled: false` is carried into the server, and an absent `disabledTools` gives the empty set |
| ConfigScenarios.DisabledServerAndTools | tests/test_config.py:49-69 | `enabled: false` and `disabledTools: ["unwanted_tool"]` are both read on the same server |
| ConfigScenarios.MergeReplacesDisabledTools | tests/test_config.py:72-103 | the merged server entry has the local `enabled` and the local `disabledTools` array, not a concatenation, and keeps the global `command` and `args` |
| ConfigScenarios.FullParse | tests/test_config.py:129-149 | the full test document parses to its prompt, its `llm` object, one server with its command and args in order, its `env`, its editor and the caller's root |
| ConfigScenarios.MissingArgsRejected | tests/test_config.py:191-203 | a server with `command` but no `args` fails with the missing key `args`, and the message contains "missing required keys" |
| ConfigScenarios.LlmMerge | tests/test_config.py:170-173 | the merged `llm` keeps the global provider and takes the local model and temperature |
| ConfigScenarios.ServerEntryMerge | tests/test_config.py:175-177 | the merged server entry has the local `enabled: true` and keeps the global command |
| ConfigScenarios.EnvMerge | tests/test_config.py:179-182 | the merged `env` has the global-only and local-only variables, and the local value of the shared one |
| ConfigScenarios.TopLevelMerge | tests/test_config.py:184-188 | the local-only `systemPrompt` and the global-only `editor` both survive the merge |

## Left out

- Reading files and parsing JSON text in `_load_raw_json`, the temporary-file round trip at tests/test_config.py:106-120. A layer is given as an already parsed document, or as no document. Malformed JSON text and unreadable files are not modelled.
- Merge strategies and schemas of `jsonmerge` other than the default, which the tests do not use.
- Floating point: numbers are opaque leaves kept as their text, so `0.7` is `JNum("0.7")`.
- `pathlib.Path` semantics: the root is an opaque string passed through unchanged.
- Exception types: a validation failure is a `Failure` value, not a raised `ValueError`. Only the "missing required keys" text of its message is pinned down. The `WrongType` message is this model's own wording.
- Downstream consumers of `Config`: the LLM client, MCP server supervision, environment injection, the editor launch and the CLI.
- JsonMerge.Merge: an object override over a non-object base (a global `"llm": null` under a local `llm` object, say) gives the override, so that merging never fails on well-formed input. No test covers this case, and `jsonmerge` itself, which is not part of this model, may reject it.
- JsonMerge.MergeIdempotent, JsonMerge.MergeWellFormed: stated only for documents with unique keys. A document with a repeated key has no Python dict counterpart.
- CouldYouConfig.ParseEncodeRoundTrip: the encoder lists a set of tools and the keys of a map in some order of no consequence. The round trip is stated from the model to the wire and back, not from the wire, where order and repetition are lost.
