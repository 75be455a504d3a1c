/**
 * The typed configuration and its parser: a merged document and the
 * caller's root directory become a `Config`, or a validation error.
 * On the wire a server's `disabledTools` is an array (ordered, duplicates
 * allowed); in the model it is a set.
 */
module CouldYouConfig {
  import opened Wrappers
  import opened JsonValue

  const PromptKey := "systemPrompt"
  const LlmKey := "llm"
  const ServersKey := "mcpServers"
  const EnvKey := "env"
  const EditorKey := "editor"
  const CommandKey := "command"
  const ArgsKey := "args"
  const EnabledKey := "enabled"
  const DisabledToolsKey := "disabledTools"

  /** The keys every server entry must carry. */
  const RequiredServerKeys: seq<string> := [CommandKey, ArgsKey]

  datatype ServerConfig = ServerConfig(
    name: string,
    command: string,
    args: seq<string>,
    enabled: bool,
    disabledTools: set<string>)

  datatype Config = Config(
    prompt: Option<string>,
    llm: seq<Member>,
    servers: seq<ServerConfig>,
    env: map<string, string>,
    editor: Option<string>,
    root: string)

  datatype Error =
    | MissingRequiredKeys(server: string, keys: seq<string>)
    | WrongType(path: seq<string>, expected: string)

  // ---------------------------------------------------------------------
  // Reading fields

  /** The value of a field; a JSON null reads as an absent field. */
  function Field(m: seq<Member>, key: string): Option<Json> {
    match Lookup(m, key)
    case Some(JNull) => None
    case other => other
  }

  /** A string array as it appears on the wire. */
  function Wire(ss: seq<string>): (xs: seq<Json>)
    ensures |xs| == |ss|
  {
    seq(|ss|, i requires 0 <= i < |ss| => JStr(ss[i]))
  }

  lemma WireHas(ss: seq<string>, t: string)
    ensures JStr(t) in Wire(ss) <==> t in ss
  {
    if t in ss {
      var i :| 0 <= i < |ss| && ss[i] == t;
      assert Wire(ss)[i] == JStr(t);
    }
  }

  /** The strings of an array whose items are all strings. */
  function Strings(xs: seq<Json>): (r: Option<seq<string>>)
    ensures r.Some? <==> forall i :: 0 <= i < |xs| ==> xs[i].JStr?
    ensures r.Some? ==> Wire(r.value) == xs
  {
    if xs == [] then Some([])
    else if !xs[0].JStr? then None
    else match Strings(xs[1..])
      case None => None
      case Some(rest) =>
        assert Wire([xs[0].s] + rest) == [xs[0]] + Wire(rest);
        Some([xs[0].s] + rest)
  }

  function StringArray(v: Json, at: seq<string>): (r: Result<seq<string>, Error>)
    ensures r.Success? <==> v.JArr? && forall i :: 0 <= i < |v.items| ==> v.items[i].JStr?
    ensures r.Success? ==> v == JArr(Wire(r.value))
  {
    if !v.JArr? then Failure(WrongType(at, "array of strings"))
    else match Strings(v.items)
      case None => Failure(WrongType(at, "array of strings"))
      case Some(ss) => Success(ss)
  }

  function OptionalString(m: seq<Member>, key: string, at: seq<string>): (r: Result<Option<string>, Error>)
    ensures r.Success? ==> WireOption(r.value) == Field(m, key)
  {
    match Field(m, key)
    case None => Success(None)
    case Some(JStr(s)) => Success(Some(s))
    case Some(_) => Failure(WrongType(at + [key], "string"))
  }

  function OptionalObject(m: seq<Member>, key: string, at: seq<string>): (r: Result<seq<Member>, Error>)
    ensures r.Success? ==> r.value == ObjectField(JObj(m), key)
    ensures r.Success? ==> if Field(m, key).None? then r.value == [] else Field(m, key) == Some(JObj(r.value))
  {
    match Field(m, key)
    case None => Success([])
    case Some(JObj(members)) => Success(members)
    case Some(_) => Failure(WrongType(at + [key], "object"))
  }

  function OptionalBool(m: seq<Member>, key: string, default: bool, at: seq<string>): (r: Result<bool, Error>)
    ensures r.Success? ==> if Field(m, key).None? then r.value == default else Field(m, key) == Some(JBool(r.value))
  {
    match Field(m, key)
    case None => Success(default)
    case Some(JBool(b)) => Success(b)
    case Some(_) => Failure(WrongType(at + [key], "boolean"))
  }

  function OptionalStringArray(m: seq<Member>, key: string, at: seq<string>): (r: Result<seq<string>, Error>)
    ensures r.Success? ==> if Field(m, key).None? then r.value == [] else Field(m, key) == Some(JArr(Wire(r.value)))
  {
    match Field(m, key)
    case None => Success([])
    case Some(v) => StringArray(v, at + [key])
  }

  /** The members of an object whose values are all strings, as a map. */
  function StringMap(m: seq<Member>, at: seq<string>): (r: Result<map<string, string>, Error>)
    ensures r.Success? <==> forall i :: 0 <= i < |m| ==> m[i].1.JStr?
    ensures r.Success? ==> forall k :: k in r.value <==> k in KeySeq(m)
    ensures r.Success? ==> forall k :: k in r.value ==> Lookup(m, k) == Some(JStr(r.value[k]))
  {
    if m == [] then Success(map[])
    else if !m[0].1.JStr? then Failure(WrongType(at + [m[0].0], "string"))
    else
      var rest :- StringMap(m[1..], at);
      Success(rest[m[0].0 := m[0].1.s])
  }

  // ---------------------------------------------------------------------
  // Servers

  /** The required keys a server entry lacks, in the order they are listed. */
  function MissingKeys(m: seq<Member>): (missing: seq<string>)
    ensures forall k :: k in missing <==> k in RequiredServerKeys && k !in KeySeq(m)
  {
    (if CommandKey in KeySeq(m) then [] else [CommandKey]) +
    (if ArgsKey in KeySeq(m) then [] else [ArgsKey])
  }

  /** `t` is one of the strings of the array at `key`. */
  predicate Listed(m: seq<Member>, key: string, t: string) {
    match Field(m, key)
    case Some(JArr(xs)) => JStr(t) in xs
    case _ => false
  }

  /** One entry under `mcpServers`: its key `name` and its object `v`. */
  function ParseServer(name: string, v: Json): (r: Result<ServerConfig, Error>)
    ensures !v.JObj? ==> r.Failure?
    ensures v.JObj? && MissingKeys(v.members) != [] ==>
      r == Failure(MissingRequiredKeys(name, MissingKeys(v.members)))
    ensures r.Success? ==>
      && r.value.name == name
      && Lookup(v.members, CommandKey) == Some(JStr(r.value.command))
      && Lookup(v.members, ArgsKey) == Some(JArr(Wire(r.value.args)))
      && r.value.enabled == (Field(v.members, EnabledKey) != Some(JBool(false)))
      && forall t :: t in r.value.disabledTools <==> Listed(v.members, DisabledToolsKey, t)
  {
    if !v.JObj? then Failure(WrongType([ServersKey, name], "object"))
    else
      var m := v.members;
      var missing := MissingKeys(m);
      if missing != [] then Failure(MissingRequiredKeys(name, missing))
      else
        var at := [ServersKey, name];
        var command :- match Lookup(m, CommandKey)
          case Some(JStr(c)) => Success(c)
          case _ => Failure(WrongType(at + [CommandKey], "string"));
        var args :- StringArray(Lookup(m, ArgsKey).value, at + [ArgsKey]);
        var enabled :- OptionalBool(m, EnabledKey, true, at);
        var tools :- OptionalStringArray(m, DisabledToolsKey, at);
        assert forall t :: t in tools <==> Listed(m, DisabledToolsKey, t) by {
          forall t ensures t in tools <==> Listed(m, DisabledToolsKey, t) {
            WireHas(tools, t);
          }
        }
        Success(ServerConfig(name, command, args, enabled, set t | t in tools))
  }

  /** All entries under `mcpServers`, in order; the first bad entry's error. */
  function ParseServers(entries: seq<Member>): (r: Result<seq<ServerConfig>, Error>)
    ensures r.Success? <==> forall i :: 0 <= i < |entries| ==> ParseServer(entries[i].0, entries[i].1).Success?
    ensures r.Success? ==> |r.value| == |entries|
    ensures r.Success? ==> forall i :: 0 <= i < |entries| ==>
      Success(r.value[i]) == ParseServer(entries[i].0, entries[i].1)
    ensures r.Failure? ==>
      exists i :: 0 <= i < |entries| && Failure(r.error) == ParseServer(entries[i].0, entries[i].1) &&
        forall j :: 0 <= j < i ==> ParseServer(entries[j].0, entries[j].1).Success?
  {
    if entries == [] then Success([])
    else
      var first :- ParseServer(entries[0].0, entries[0].1);
      var rest :- ParseServers(entries[1..]);
      Success([first] + rest)
  }

  // ---------------------------------------------------------------------
  // The whole document

  /** The members of the object under `key`, or none when there is no such object. */
  function ObjectField(doc: Json, key: string): seq<Member> {
    if doc.JObj? then
      match Field(doc.members, key)
      case Some(JObj(members)) => members
      case _ => []
    else []
  }

  /** The entries under `mcpServers`. */
  function ServerEntries(doc: Json): seq<Member> {
    ObjectField(doc, ServersKey)
  }

  /** Some entry under `mcpServers` is not a valid server. */
  predicate ServersFail(doc: Json) {
    exists i :: 0 <= i < |ServerEntries(doc)| && ParseServer(ServerEntries(doc)[i].0, ServerEntries(doc)[i].1).Failure?
  }

  /** An optional string as it appears on the wire. */
  function WireOption(o: Option<string>): Option<Json> {
    match o
    case None => None
    case Some(s) => Some(JStr(s))
  }

  /** Parse a merged document against the caller's root directory. */
  function ParseFromJson(doc: Json, root: string): (r: Result<Config, Error>)
    ensures !doc.JObj? ==> r.Failure?
    ensures r.Success? ==>
      && r.value.root == root
      && WireOption(r.value.prompt) == Field(doc.members, PromptKey)
      && WireOption(r.value.editor) == Field(doc.members, EditorKey)
      && (if Field(doc.members, LlmKey).None? then r.value.llm == []
          else Field(doc.members, LlmKey) == Some(JObj(r.value.llm)))
    ensures r.Success? ==>
      && |r.value.servers| == |ServerEntries(doc)|
      && forall i :: 0 <= i < |r.value.servers| ==>
           Success(r.value.servers[i]) == ParseServer(ServerEntries(doc)[i].0, ServerEntries(doc)[i].1)
    ensures r.Success? ==> forall k :: k in r.value.env <==> k in KeySeq(ObjectField(doc, EnvKey))
    ensures r.Success? ==> forall k :: k in r.value.env ==> Lookup(ObjectField(doc, EnvKey), k) == Some(JStr(r.value.env[k]))
    ensures ServersFail(doc) ==> r.Failure?
  {
    if !doc.JObj? then Failure(WrongType([], "object"))
    else
      var m := doc.members;
      var entries :- OptionalObject(m, ServersKey, []);
      var servers :- ParseServers(entries);
      var prompt :- OptionalString(m, PromptKey, []);
      var llm :- OptionalObject(m, LlmKey, []);
      var envMembers :- OptionalObject(m, EnvKey, []);
      var env :- StringMap(envMembers, [EnvKey]);
      var editor :- OptionalString(m, EditorKey, []);
      Success(Config(prompt, llm, servers, env, editor, root))
  }

  /** The empty document parses to the configuration with nothing set and the caller's root. */
  lemma ParseEmptyDocument(root: string)
    ensures ParseFromJson(JObj([]), root) == Success(Config(None, [], [], map[], None, root))
  {
    assert OptionalObject([], ServersKey, []) == Success([]);
    assert OptionalObject([], EnvKey, []) == Success([]);
  }

  /**
   * When the first bad server entry lacks required keys, parsing fails
   * with the error naming that server and exactly the keys it lacks.
   */
  lemma {:induction false} FirstMissingKeysReported(doc: Json, root: string, i: nat)
    requires doc.JObj? && OptionalObject(doc.members, ServersKey, []).Success?
    requires i < |ServerEntries(doc)|
    requires forall j :: 0 <= j < i ==> ParseServer(ServerEntries(doc)[j].0, ServerEntries(doc)[j].1).Success?
    requires ServerEntries(doc)[i].1.JObj? && MissingKeys(ServerEntries(doc)[i].1.members) != []
    ensures ParseFromJson(doc, root) ==
      Failure(MissingRequiredKeys(ServerEntries(doc)[i].0, MissingKeys(ServerEntries(doc)[i].1.members)))
  {
    var entries := ServerEntries(doc);
    var r := ParseServers(entries);
    assert ParseServer(entries[i].0, entries[i].1).Failure?;
    assert r.Failure?;
    var i' :| 0 <= i' < |entries| && Failure(r.error) == ParseServer(entries[i'].0, entries[i'].1) &&
      forall j :: 0 <= j < i' ==> ParseServer(entries[j].0, entries[j].1).Success?;
    assert i' == i;
  }

  /** The entries under `mcpServers` of a well-formed document have distinct keys. */
  lemma ServerEntriesUnique(doc: Json)
    requires WellFormed(doc)
    ensures UniqueKeys(ServerEntries(doc))
  {
    if doc.JObj? {
      var m := doc.members;
      match Lookup(m, ServersKey)
      case Some(JObj(es)) =>
        LookupFound(m, ServersKey);
        var n :| 0 <= n < |m| && m[n] == (ServersKey, JObj(es));
        assert WellFormed(m[n].1);
        assert ServerEntries(doc) == es;
      case _ =>
    }
  }

  /**
   * Server names are unique within a configuration: each is the key of its
   * entry, and the keys of the `mcpServers` object are distinct.
   */
  lemma UniqueServerNames(doc: Json, root: string)
    requires WellFormed(doc) && ParseFromJson(doc, root).Success?
    ensures var s := ParseFromJson(doc, root).value.servers;
      forall i, j :: 0 <= i < j < |s| ==> s[i].name != s[j].name
  {
    var entries := ServerEntries(doc);
    var s := ParseFromJson(doc, root).value.servers;
    ServerEntriesUnique(doc);
    assert forall i :: 0 <= i < |s| ==> s[i].name == entries[i].0 by {
      forall i | 0 <= i < |s| ensures s[i].name == entries[i].0 {
        assert Success(s[i]) == ParseServer(entries[i].0, entries[i].1);
      }
    }
  }

  // ---------------------------------------------------------------------
  // Error messages

  function Join(parts: seq<string>, sep: string): string {
    if parts == [] then ""
    else if |parts| == 1 then parts[0]
    else parts[0] + sep + Join(parts[1..], sep)
  }

  /** The text the caller sees for a validation error. */
  function Message(e: Error): string {
    match e
    case MissingRequiredKeys(server, keys) =>
      "MCP server '" + server + "' is missing required keys: " + Join(keys, ", ")
    case WrongType(path, expected) =>
      "'" + Join(path, ".") + "' must be " + expected
  }

  /** `t` occurs in `s` at offset `i`. */
  predicate OccursAt(s: string, t: string, i: nat) {
    i + |t| <= |s| && s[i..i + |t|] == t
  }

  predicate Contains(s: string, t: string) {
    exists i: nat | i <= |s| :: OccursAt(s, t, i)
  }

  lemma ContainsMiddle(a: string, t: string, b: string)
    ensures Contains(a + t + b, t)
  {
    assert (a + t + b)[|a|..|a| + |t|] == t;
    assert OccursAt(a + t + b, t, |a|);
  }

  lemma ContainsWithin(a: string, s: string, b: string, t: string)
    requires Contains(s, t)
    ensures Contains(a + s + b, t)
  {
    var i: nat :| i <= |s| && OccursAt(s, t, i);
    assert i + |t| <= |s|;
    assert (a + s + b)[|a| + i..|a| + i + |t|] == s[i..i + |t|];
    assert OccursAt(a + s + b, t, |a| + i);
  }

  lemma {:induction false} JoinContains(parts: seq<string>, sep: string, k: string)
    requires k in parts
    ensures Contains(Join(parts, sep), k)
  {
    if |parts| == 1 {
      ContainsMiddle("", k, "");
      assert "" + k + "" == k;
    } else if parts[0] == k {
      ContainsMiddle("", k, sep + Join(parts[1..], sep));
      assert "" + k + (sep + Join(parts[1..], sep)) == Join(parts, sep);
    } else {
      JoinContains(parts[1..], sep, k);
      ContainsWithin(parts[0] + sep, Join(parts[1..], sep), "", k);
      assert parts[0] + sep + Join(parts[1..], sep) + "" == Join(parts, sep);
    }
  }

  lemma MessageNamesServer(server: string, keys: seq<string>)
    ensures Contains(Message(MissingRequiredKeys(server, keys)), server)
  {
    var tail := "' is missing required keys: " + Join(keys, ", ");
    assert Message(MissingRequiredKeys(server, keys)) == "MCP server '" + server + tail;
    ContainsMiddle("MCP server '", server, tail);
  }

  lemma MessageSaysMissing(server: string, keys: seq<string>)
    ensures Contains(Message(MissingRequiredKeys(server, keys)), "missing required keys")
  {
    var head, tail := "MCP server '" + server + "' is ", ": " + Join(keys, ", ");
    assert Message(MissingRequiredKeys(server, keys)) == head + "missing required keys" + tail;
    ContainsMiddle(head, "missing required keys", tail);
  }

  lemma MessageNamesKey(server: string, keys: seq<string>, k: string)
    requires k in keys
    ensures Contains(Message(MissingRequiredKeys(server, keys)), k)
  {
    var head := "MCP server '" + server + "' is missing required keys: ";
    JoinContains(keys, ", ", k);
    ContainsWithin(head, Join(keys, ", "), "", k);
    assert head + Join(keys, ", ") + "" == Message(MissingRequiredKeys(server, keys));
  }

  /** A missing-keys error says "missing required keys" and names the server and every missing key. */
  lemma MissingKeysMessage(server: string, keys: seq<string>)
    ensures Contains(Message(MissingRequiredKeys(server, keys)), "missing required keys")
    ensures Contains(Message(MissingRequiredKeys(server, keys)), server)
    ensures forall k :: k in keys ==> Contains(Message(MissingRequiredKeys(server, keys)), k)
  {
    MessageSaysMissing(server, keys);
    MessageNamesServer(server, keys);
    forall k | k in keys ensures Contains(Message(MissingRequiredKeys(server, keys)), k) {
      MessageNamesKey(server, keys, k);
    }
  }

  // ---------------------------------------------------------------------
  // Writing a configuration back to the wire

  /** Some listing of a set without repeats, in an order of no consequence. */
  ghost function Listing(s: set<string>): (r: seq<string>)
    ensures forall t :: t in r <==> t in s
    ensures forall i, j :: 0 <= i < j < |r| ==> r[i] != r[j]
    decreases |s|
  {
    if s == {} then []
    else
      var t :| t in s;
      var rest := Listing(s - {t});
      assert forall j :: 0 <= j < |rest| ==> rest[j] != t by {
        forall j | 0 <= j < |rest| ensures rest[j] != t {
          assert rest[j] in rest;
        }
      }
      [t] + rest
  }

  /** The members of a string map, listed in an order of no consequence. */
  ghost function EnvMembers(env: map<string, string>): (r: seq<Member>)
    ensures UniqueKeys(r)
    ensures forall k :: k in KeySeq(r) <==> k in env
    ensures forall i :: 0 <= i < |r| ==> r[i].0 in env && r[i].1 == JStr(env[r[i].0])
  {
    var ks := Listing(env.Keys);
    var r := seq(|ks|, i requires 0 <= i < |ks| => (ks[i], JStr(env[ks[i]])));
    assert KeySeq(r) == ks;
    r
  }

  ghost function EncodeServer(s: ServerConfig): Json {
    JObj([
      (CommandKey, JStr(s.command)),
      (ArgsKey, JArr(Wire(s.args))),
      (EnabledKey, JBool(s.enabled)),
      (DisabledToolsKey, JArr(Wire(Listing(s.disabledTools))))])
  }

  function OptionalMember(key: string, o: Option<string>): seq<Member> {
    match o
    case None => []
    case Some(v) => [(key, JStr(v))]
  }

  /** The `mcpServers` entries for a list of servers, keyed by name. */
  ghost function EncodeServers(servers: seq<ServerConfig>): (entries: seq<Member>)
    ensures |entries| == |servers|
    ensures forall i :: 0 <= i < |servers| ==> entries[i] == (servers[i].name, EncodeServer(servers[i]))
  {
    seq(|servers|, i requires 0 <= i < |servers| => (servers[i].name, EncodeServer(servers[i])))
  }

  /** A document whose parse is the given configuration. */
  ghost function Encode(c: Config): Json {
    JObj(OptionalMember(PromptKey, c.prompt) + [
      (LlmKey, JObj(c.llm)),
      (ServersKey, JObj(EncodeServers(c.servers))),
      (EnvKey, JObj(EnvMembers(c.env)))] +
      OptionalMember(EditorKey, c.editor))
  }

  lemma WireInjective(a: seq<string>, b: seq<string>)
    requires Wire(a) == Wire(b)
    ensures a == b
  {
    assert |a| == |b|;
    forall i | 0 <= i < |a| ensures a[i] == b[i] {
      assert Wire(a)[i] == JStr(a[i]) && Wire(b)[i] == JStr(b[i]);
    }
  }

  lemma StringsOfWire(ss: seq<string>)
    ensures Strings(Wire(ss)) == Some(ss)
  {
    WireInjective(Strings(Wire(ss)).value, ss);
  }

  /** An optional array of strings as it appears on the wire. */
  function WireArray(o: Option<seq<string>>): Option<Json> {
    match o
    case None => None
    case Some(ss) => Some(JArr(Wire(ss)))
  }

  /** An optional boolean as it appears on the wire. */
  function WireBool(o: Option<bool>): Option<Json> {
    match o
    case None => None
    case Some(b) => Some(JBool(b))
  }

  /**
   * A server entry holding a string command and an array of string args,
   * and optionally a boolean `enabled` and an array of string
   * `disabledTools`, parses to those values, with the defaults for what is absent.
   */
  lemma ParseWellTypedServer(name: string, m: seq<Member>, command: string, args: seq<string>,
                             enabled: Option<bool>, tools: Option<seq<string>>)
    requires Lookup(m, CommandKey) == Some(JStr(command))
    requires Lookup(m, ArgsKey) == Some(JArr(Wire(args)))
    requires Lookup(m, EnabledKey) == WireBool(enabled)
    requires Lookup(m, DisabledToolsKey) == WireArray(tools)
    ensures ParseServer(name, JObj(m)) ==
      Success(ServerConfig(name, command, args, enabled.GetOr(true), set t | t in tools.GetOr([])))
  {
    StringsOfWire(args);
    StringsOfWire(tools.GetOr([]));
    var at := [ServersKey, name];
    assert MissingKeys(m) == [];
    assert StringArray(JArr(Wire(args)), at + [ArgsKey]) == Success(args);
    assert OptionalBool(m, EnabledKey, true, at) == Success(enabled.GetOr(true));
    assert OptionalStringArray(m, DisabledToolsKey, at) == Success(tools.GetOr([]));
  }

  /** An entry that sets all four server keys, in that order, is read field for field. */
  lemma ParseCompleteServer(name: string, command: string, args: seq<string>, enabled: bool, tools: seq<string>)
    ensures
      var entry := [
        (CommandKey, JStr(command)), (ArgsKey, JArr(Wire(args))),
        (EnabledKey, JBool(enabled)), (DisabledToolsKey, JArr(Wire(tools)))];
      ParseServer(name, JObj(entry)) == Success(ServerConfig(name, command, args, enabled, set t | t in tools))
  {
    var entry := [
      (CommandKey, JStr(command)), (ArgsKey, JArr(Wire(args))),
      (EnabledKey, JBool(enabled)), (DisabledToolsKey, JArr(Wire(tools)))];
    assert Lookup(entry, ArgsKey) == Lookup(entry[1..], ArgsKey);
    assert Lookup(entry, EnabledKey) == Lookup(entry[1..], EnabledKey) == Lookup(entry[2..], EnabledKey);
    assert Lookup(entry, DisabledToolsKey) == Lookup(entry[1..], DisabledToolsKey) == Lookup(entry[2..], DisabledToolsKey)
      == Lookup(entry[3..], DisabledToolsKey);
    ParseWellTypedServer(name, entry, command, args, Some(enabled), Some(tools));
  }

  /** Every server configuration is the parse of its own encoding. */
  lemma ServerRoundTrip(s: ServerConfig)
    ensures ParseServer(s.name, EncodeServer(s)) == Success(s)
  {
    var listing := Listing(s.disabledTools);
    ParseCompleteServer(s.name, s.command, s.args, s.enabled, listing);
    assert (set t | t in listing) == s.disabledTools;
  }

  lemma EnvMembersLookup(env: map<string, string>, k: string)
    requires k in env
    ensures Lookup(EnvMembers(env), k) == Some(JStr(env[k]))
  {
    var m := EnvMembers(env);
    assert k in KeySeq(m);
    var i :| 0 <= i < |m| && KeySeq(m)[i] == k;
    LookupUnique(m, i);
  }

  /** A string map is read back from members that hold exactly its entries. */
  lemma StringMapOf(m: seq<Member>, at: seq<string>, env: map<string, string>)
    requires forall i :: 0 <= i < |m| ==> m[i].1.JStr?
    requires forall k :: k in KeySeq(m) <==> k in env
    requires forall k :: k in env ==> Lookup(m, k) == Some(JStr(env[k]))
    ensures StringMap(m, at) == Success(env)
  {
    var got := StringMap(m, at).value;
    assert forall k :: k in got <==> k in env;
    assert forall k :: k in got ==> got[k] == env[k] by {
      forall k | k in got ensures got[k] == env[k] {
        assert Lookup(m, k) == Some(JStr(got[k]));
      }
    }
    assert got == env;
  }

  lemma EnvRoundTrip(env: map<string, string>, at: seq<string>)
    ensures StringMap(EnvMembers(env), at) == Success(env)
  {
    var m := EnvMembers(env);
    assert forall i :: 0 <= i < |m| ==> m[i].1.JStr?;
    forall k | k in env ensures Lookup(m, k) == Some(JStr(env[k])) {
      EnvMembersLookup(env, k);
    }
    StringMapOf(m, at, env);
  }

  lemma LookupIn3(pre: seq<Member>, body: seq<Member>, post: seq<Member>, k: string)
    ensures Lookup(pre + body + post, k) ==
      if k in KeySeq(pre) then Lookup(pre, k)
      else if k in KeySeq(body) then Lookup(body, k)
      else Lookup(post, k)
  {
    LookupAppend(pre + body, post, k);
    LookupAppend(pre, body, k);
    KeySeqAppend(pre, body);
  }

  lemma LookupFixedFields(llm: Json, servers: Json, env: Json)
    ensures Lookup([(LlmKey, llm), (ServersKey, servers), (EnvKey, env)], LlmKey) == Some(llm)
    ensures Lookup([(LlmKey, llm), (ServersKey, servers), (EnvKey, env)], ServersKey) == Some(servers)
    ensures Lookup([(LlmKey, llm), (ServersKey, servers), (EnvKey, env)], EnvKey) == Some(env)
    ensures Lookup([(LlmKey, llm), (ServersKey, servers), (EnvKey, env)], PromptKey) == None
    ensures Lookup([(LlmKey, llm), (ServersKey, servers), (EnvKey, env)], EditorKey) == None
  {
    var body := [(LlmKey, llm), (ServersKey, servers), (EnvKey, env)];
    assert KeySeq(body) == [LlmKey, ServersKey, EnvKey];
    assert UniqueKeys(body);
    LookupUnique(body, 0);
    LookupUnique(body, 1);
    LookupUnique(body, 2);
  }

  /** Where each top-level field of an encoded configuration is found. */
  lemma EncodedFields(c: Config)
    ensures Lookup(Encode(c).members, PromptKey) == WireOption(c.prompt)
    ensures Lookup(Encode(c).members, LlmKey) == Some(JObj(c.llm))
    ensures Lookup(Encode(c).members, ServersKey) == Some(JObj(EncodeServers(c.servers)))
    ensures Lookup(Encode(c).members, EnvKey) == Some(JObj(EnvMembers(c.env)))
    ensures Lookup(Encode(c).members, EditorKey) == WireOption(c.editor)
  {
    var pre, post := OptionalMember(PromptKey, c.prompt), OptionalMember(EditorKey, c.editor);
    var body := [(LlmKey, JObj(c.llm)), (ServersKey, JObj(EncodeServers(c.servers))), (EnvKey, JObj(EnvMembers(c.env)))];
    assert Encode(c).members == pre + body + post;
    assert KeySeq(body) == [LlmKey, ServersKey, EnvKey];
    assert KeySeq(pre) == if c.prompt.Some? then [PromptKey] else [];
    assert KeySeq(post) == if c.editor.Some? then [EditorKey] else [];
    LookupFixedFields(JObj(c.llm), JObj(EncodeServers(c.servers)), JObj(EnvMembers(c.env)));
    LookupIn3(pre, body, post, PromptKey);
    LookupIn3(pre, body, post, LlmKey);
    LookupIn3(pre, body, post, ServersKey);
    LookupIn3(pre, body, post, EnvKey);
    LookupIn3(pre, body, post, EditorKey);
  }

  /** An optional object as it appears on the wire. */
  function WireObject(o: Option<seq<Member>>): Option<Json> {
    match o
    case None => None
    case Some(m) => Some(JObj(m))
  }

  /**
   * A document holding a value of the right type under each key it has
   * parses to those values, with the defaults for what is absent.
   */
  lemma ParseWellTypedFields(m: seq<Member>, root: string, prompt: Option<string>, llm: Option<seq<Member>>,
                             entries: Option<seq<Member>>, envMembers: Option<seq<Member>>, editor: Option<string>,
                             servers: seq<ServerConfig>, env: map<string, string>)
    requires Lookup(m, PromptKey) == WireOption(prompt)
    requires Lookup(m, LlmKey) == WireObject(llm)
    requires Lookup(m, ServersKey) == WireObject(entries)
    requires Lookup(m, EnvKey) == WireObject(envMembers)
    requires Lookup(m, EditorKey) == WireOption(editor)
    requires ParseServers(entries.GetOr([])) == Success(servers)
    requires StringMap(envMembers.GetOr([]), [EnvKey]) == Success(env)
    ensures ParseFromJson(JObj(m), root) == Success(Config(prompt, llm.GetOr([]), servers, env, editor, root))
  {
    OptionalStringOfWire(m, PromptKey, prompt);
    OptionalStringOfWire(m, EditorKey, editor);
    OptionalObjectOfWire(m, ServersKey, entries);
    OptionalObjectOfWire(m, LlmKey, llm);
    OptionalObjectOfWire(m, EnvKey, envMembers);
    ParseWellTypedDocument(m, root, entries.GetOr([]), Config(prompt, llm.GetOr([]), servers, env, editor, root));
  }

  lemma OptionalObjectOfWire(m: seq<Member>, key: string, o: Option<seq<Member>>)
    requires Lookup(m, key) == WireObject(o)
    ensures OptionalObject(m, key, []) == Success(o.GetOr([]))
    ensures ObjectField(JObj(m), key) == o.GetOr([])
  {
    match o
    case None =>
    case Some(members) => assert Field(m, key) == Some(JObj(members));
  }

  lemma OptionalStringOfWire(m: seq<Member>, key: string, o: Option<string>)
    requires Field(m, key) == WireOption(o)
    ensures OptionalString(m, key, []) == Success(o)
  {
    match o
    case None =>
    case Some(s) => assert Field(m, key) == Some(JStr(s));
  }

  /** A document whose every field reads successfully parses to those readings. */
  lemma ParseWellTypedDocument(m: seq<Member>, root: string, entries: seq<Member>, c: Config)
    requires OptionalObject(m, ServersKey, []) == Success(entries)
    requires ParseServers(entries) == Success(c.servers)
    requires OptionalString(m, PromptKey, []) == Success(c.prompt)
    requires OptionalObject(m, LlmKey, []) == Success(c.llm)
    requires StringMap(ObjectField(JObj(m), EnvKey), [EnvKey]) == Success(c.env)
    requires OptionalObject(m, EnvKey, []).Success?
    requires OptionalString(m, EditorKey, []) == Success(c.editor)
    requires c.root == root
    ensures ParseFromJson(JObj(m), root) == Success(c)
  {
  }

  /**
   * Every configuration is the parse of its encoding: the parse carries
   * each field through, and the root is the caller's.
   */
  lemma ParseEncodeRoundTrip(c: Config)
    ensures ParseFromJson(Encode(c), c.root) == Success(c)
  {
    ServersRoundTrip(c.servers);
    EnvRoundTrip(c.env, [EnvKey]);
    EncodedFields(c);
    ParseWellTypedFields(Encode(c).members, c.root, c.prompt, Some(c.llm), Some(EncodeServers(c.servers)),
      Some(EnvMembers(c.env)), c.editor, c.servers, c.env);
  }

  lemma ServersRoundTrip(servers: seq<ServerConfig>)
    ensures ParseServers(EncodeServers(servers)) == Success(servers)
  {
    var entries := EncodeServers(servers);
    forall i | 0 <= i < |entries| ensures ParseServer(entries[i].0, entries[i].1) == Success(servers[i]) {
      ServerRoundTrip(servers[i]);
    }
    var r := ParseServers(entries);
    assert r.Success?;
    assert r.value == servers;
  }

}
