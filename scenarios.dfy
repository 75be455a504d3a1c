/**
 * The concrete configurations of the repository's test suite, with what
 * the tests assert about parsing and merging them.
 */
module ConfigScenarios {
  import opened Wrappers
  import opened JsonValue
  import opened JsonMerge
  import opened CouldYouConfig
  import opened ConfigLoader

  const Root := "/test/root"

  const TestLlm: seq<Member> := [("provider", JStr("boto3")), ("model", JStr("test"))]

  /** A document with only `llm` and `mcpServers`. */
  function LlmAndServers(entries: seq<Member>): seq<Member> {
    [(LlmKey, JObj(TestLlm)), (ServersKey, JObj(entries))]
  }

  lemma LookupLlmAndServers(entries: seq<Member>)
    ensures Lookup(LlmAndServers(entries), PromptKey) == None
    ensures Lookup(LlmAndServers(entries), LlmKey) == Some(JObj(TestLlm))
    ensures Lookup(LlmAndServers(entries), ServersKey) == Some(JObj(entries))
    ensures Lookup(LlmAndServers(entries), EnvKey) == None
    ensures Lookup(LlmAndServers(entries), EditorKey) == None
  {
  }

  lemma SingleServer(name: string, v: Json, s: ServerConfig)
    requires ParseServer(name, v) == Success(s)
    ensures ParseServers([(name, v)]) == Success([s])
  {
    var entries := [(name, v)];
    var r := ParseServers(entries);
    assert forall i :: 0 <= i < |entries| ==> ParseServer(entries[i].0, entries[i].1).Success?;
    assert Success(r.value[0]) == ParseServer(entries[0].0, entries[0].1);
    assert r.value == [s];
  }

  /** A document with `llm` and one server parses to that server alone. */
  lemma SingleServerDocument(name: string, entry: seq<Member>, server: ServerConfig)
    requires ParseServer(name, JObj(entry)) == Success(server)
    ensures ParseFromJson(JObj(LlmAndServers([(name, JObj(entry))])), Root) ==
      Success(Config(None, TestLlm, [server], map[], None, Root))
  {
    var entries := [(name, JObj(entry))];
    SingleServer(name, JObj(entry), server);
    LookupLlmAndServers(entries);
    ParseWellTypedFields(LlmAndServers(entries), Root, None, Some(TestLlm), Some(entries), None, None, [server], map[]);
  }

  // The sets of tool names that short literal lists denote.

  lemma NoTools()
    ensures (set t: string | t in []) == {}
  {
  }

  lemma SingletonSet(x: string)
    ensures (set t | t in [x]) == {x}
  {
  }

  lemma PairSet(x: string, y: string)
    ensures (set t | t in [x, y]) == {x, y}
  {
  }

  /** A server's `disabledTools` array becomes the set of its names; `enabled` defaults to true. */
  lemma DisabledToolsBecomeSet()
    ensures
      var entry := [
        (CommandKey, JStr("test-command")),
        (ArgsKey, JArr(Wire(["arg1", "arg2"]))),
        (DisabledToolsKey, JArr(Wire(["tool1", "tool2"])))];
      ParseFromJson(JObj(LlmAndServers([("test-server", JObj(entry))])), Root) ==
        Success(Config(None, TestLlm,
          [ServerConfig("test-server", "test-command", ["arg1", "arg2"], true, {"tool1", "tool2"})],
          map[], None, Root))
  {
    var entry := [
      (CommandKey, JStr("test-command")),
      (ArgsKey, JArr(Wire(["arg1", "arg2"]))),
      (DisabledToolsKey, JArr(Wire(["tool1", "tool2"])))];
    var server := ServerConfig("test-server", "test-command", ["arg1", "arg2"], true, {"tool1", "tool2"});
    assert ParseServer("test-server", JObj(entry)) == Success(server) by {
      assert Lookup(entry, ArgsKey) == Lookup(entry[1..], ArgsKey);
      assert Lookup(entry, DisabledToolsKey) == Lookup(entry[1..], DisabledToolsKey) == Lookup(entry[2..], DisabledToolsKey);
      assert Lookup(entry, EnabledKey) == None;
      ParseWellTypedServer("test-server", entry, "test-command", ["arg1", "arg2"], None, Some(["tool1", "tool2"]));
      PairSet("tool1", "tool2");
    }
    SingleServerDocument("test-server", entry, server);
  }

  /** `enabled: false` is carried into the server; an absent `disabledTools` is the empty set. */
  lemma EnabledFalseCarried()
    ensures
      var entry := [(CommandKey, JStr("test-command")), (ArgsKey, JArr(Wire(["arg1"]))), (EnabledKey, JBool(false))];
      ParseFromJson(JObj(LlmAndServers([("disabled-server", JObj(entry))])), Root) ==
        Success(Config(None, TestLlm,
          [ServerConfig("disabled-server", "test-command", ["arg1"], false, {})],
          map[], None, Root))
  {
    var entry := [(CommandKey, JStr("test-command")), (ArgsKey, JArr(Wire(["arg1"]))), (EnabledKey, JBool(false))];
    var server := ServerConfig("disabled-server", "test-command", ["arg1"], false, {});
    assert ParseServer("disabled-server", JObj(entry)) == Success(server) by {
      assert Lookup(entry, ArgsKey) == Lookup(entry[1..], ArgsKey);
      assert Lookup(entry, EnabledKey) == Lookup(entry[1..], EnabledKey) == Lookup(entry[2..], EnabledKey);
      assert Lookup(entry, DisabledToolsKey) == None;
      ParseWellTypedServer("disabled-server", entry, "test-command", ["arg1"], Some(false), None);
      NoTools();
    }
    SingleServerDocument("disabled-server", entry, server);
  }

  /** `enabled: false` and a non-empty `disabledTools` are read independently. */
  lemma DisabledServerAndTools()
    ensures
      var entry := [
        (CommandKey, JStr("test-command")), (ArgsKey, JArr(Wire(["arg1"]))),
        (EnabledKey, JBool(false)), (DisabledToolsKey, JArr(Wire(["unwanted_tool"])))];
      ParseFromJson(JObj(LlmAndServers([("complex-server", JObj(entry))])), Root) ==
        Success(Config(None, TestLlm,
          [ServerConfig("complex-server", "test-command", ["arg1"], false, {"unwanted_tool"})],
          map[], None, Root))
  {
    var entry := [
      (CommandKey, JStr("test-command")), (ArgsKey, JArr(Wire(["arg1"]))),
      (EnabledKey, JBool(false)), (DisabledToolsKey, JArr(Wire(["unwanted_tool"])))];
    var server := ServerConfig("complex-server", "test-command", ["arg1"], false, {"unwanted_tool"});
    ParseCompleteServer("complex-server", "test-command", ["arg1"], false, ["unwanted_tool"]);
    SingletonSet("unwanted_tool");
    SingleServerDocument("complex-server", entry, server);
  }

  const FullEntry: seq<Member> := [(CommandKey, JStr("test-command")), (ArgsKey, JArr(Wire(["arg1", "arg2"])))]

  const FullEnv: seq<Member> := [("TEST_VAR", JStr("test_value"))]

  const FullDoc: seq<Member> := [
    (PromptKey, JStr("Test prompt")),
    (LlmKey, JObj(TestLlm)),
    (ServersKey, JObj([("test-server", JObj(FullEntry))])),
    (EnvKey, JObj(FullEnv)),
    (EditorKey, JStr("vim"))]

  lemma FullDocFields()
    ensures Lookup(FullDoc, PromptKey) == Some(JStr("Test prompt"))
    ensures Lookup(FullDoc, LlmKey) == Some(JObj(TestLlm))
    ensures Lookup(FullDoc, ServersKey) == Some(JObj([("test-server", JObj(FullEntry))]))
    ensures Lookup(FullDoc, EnvKey) == Some(JObj(FullEnv))
    ensures Lookup(FullDoc, EditorKey) == Some(JStr("vim"))
  {
    var d := FullDoc;
    assert Lookup(d, LlmKey) == Lookup(d[1..], LlmKey);
    assert Lookup(d, ServersKey) == Lookup(d[1..], ServersKey) == Lookup(d[2..], ServersKey);
    assert Lookup(d, EnvKey) == Lookup(d[1..], EnvKey) == Lookup(d[2..], EnvKey) == Lookup(d[3..], EnvKey);
    assert Lookup(d, EditorKey) == Lookup(d[1..], EditorKey) == Lookup(d[2..], EditorKey)
      == Lookup(d[3..], EditorKey) == Lookup(d[4..], EditorKey);
  }

  /** A full document: every field is carried through and the root is the caller's. */
  lemma FullParse()
    ensures ParseFromJson(JObj(FullDoc), Root) ==
      Success(Config(Some("Test prompt"), TestLlm,
        [ServerConfig("test-server", "test-command", ["arg1", "arg2"], true, {})],
        map["TEST_VAR" := "test_value"], Some("vim"), Root))
  {
    var server := ServerConfig("test-server", "test-command", ["arg1", "arg2"], true, {});
    assert ParseServer("test-server", JObj(FullEntry)) == Success(server) by {
      assert Lookup(FullEntry, EnabledKey) == None;
      assert Lookup(FullEntry, DisabledToolsKey) == None;
      ParseWellTypedServer("test-server", FullEntry, "test-command", ["arg1", "arg2"], None, None);
      NoTools();
    }
    SingleServer("test-server", JObj(FullEntry), server);
    FullDocFields();
    assert StringMap(FullEnv, [EnvKey]) == Success(map["TEST_VAR" := "test_value"]);
    ParseWellTypedFields(FullDoc, Root, Some("Test prompt"), Some(TestLlm), Some([("test-server", JObj(FullEntry))]),
      Some(FullEnv), Some("vim"), [server], map["TEST_VAR" := "test_value"]);
  }

  /** A server object with `command` but no `args` fails, and the message says "missing required keys". */
  lemma MissingArgsRejected()
    ensures
      var doc := JObj([(ServersKey, JObj([("invalid-server", JObj([(CommandKey, JStr("test-command"))]))]))]);
      var r := ParseFromJson(doc, Root);
      && r == Failure(MissingRequiredKeys("invalid-server", [ArgsKey]))
      && Contains(Message(r.error), "missing required keys")
  {
    var doc := JObj([(ServersKey, JObj([("invalid-server", JObj([(CommandKey, JStr("test-command"))]))]))]);
    assert MissingKeys([(CommandKey, JStr("test-command"))]) == [ArgsKey];
    FirstMissingKeysReported(doc, Root, 0);
    MissingKeysMessage("invalid-server", [ArgsKey]);
  }

  // ---------------------------------------------------------------------
  // Merging

  const SharedGlobal: Json := JObj([
    (LlmKey, JObj([("provider", JStr("boto3")), ("model", JStr("global-model"))])),
    (ServersKey, JObj([("shared-server", JObj([
      (CommandKey, JStr("global-command")),
      (ArgsKey, JArr(Wire(["global-arg"]))),
      (DisabledToolsKey, JArr(Wire(["global_disabled_tool"])))]))]))])

  const SharedLocalServer: seq<Member> := [
    (EnabledKey, JBool(true)),
    (DisabledToolsKey, JArr(Wire(["local_disabled_tool", "another_disabled_tool"])))]

  const SharedLocal: Json := JObj([(ServersKey, JObj([("shared-server", JObj(SharedLocalServer))]))])

  lemma SharedLocalEntry()
    ensures Get(SharedLocal, [ServersKey, "shared-server"]) == Some(JObj(SharedLocalServer))
    ensures KeySeq(SharedLocalServer) == [EnabledKey, DisabledToolsKey]
    ensures Lookup(SharedLocalServer, EnabledKey) == Some(JBool(true))
    ensures Lookup(SharedLocalServer, DisabledToolsKey) == Some(JArr(Wire(["local_disabled_tool", "another_disabled_tool"])))
  {
    assert [ServersKey, "shared-server"][1..] == ["shared-server"];
    assert ["shared-server"][1..] == [];
  }

  lemma SharedGlobalEntry()
    ensures Get(SharedGlobal, [ServersKey, "shared-server", CommandKey]) == Some(JStr("global-command"))
    ensures Get(SharedGlobal, [ServersKey, "shared-server", ArgsKey]) == Some(JArr(Wire(["global-arg"])))
  {
    var gs := [
      (CommandKey, JStr("global-command")),
      (ArgsKey, JArr(Wire(["global-arg"]))),
      (DisabledToolsKey, JArr(Wire(["global_disabled_tool"])))];
    var entries := [("shared-server", JObj(gs))];
    assert Lookup(SharedGlobal.members, ServersKey) == Some(JObj(entries));
    assert Lookup(entries, "shared-server") == Some(JObj(gs));
    assert Lookup(gs, ArgsKey) == Lookup(gs[1..], ArgsKey);
    GetAt3(SharedGlobal.members, ServersKey, "shared-server", CommandKey, entries, gs, JStr("global-command"));
    GetAt3(SharedGlobal.members, ServersKey, "shared-server", ArgsKey, entries, gs, JArr(Wire(["global-arg"])));
  }

  /**
   * The local `disabledTools` array replaces the global one without
   * concatenation, the local `enabled` is added, and the global `command`
   * and `args` that the local entry omits are kept.
   */
  lemma MergeReplacesDisabledTools()
    ensures
      var merged := Merge(SharedGlobal, SharedLocal);
      && Get(merged, [ServersKey, "shared-server", EnabledKey]) == Some(JBool(true))
      && Get(merged, [ServersKey, "shared-server", DisabledToolsKey]) ==
           Some(JArr(Wire(["local_disabled_tool", "another_disabled_tool"])))
      && Get(merged, [ServersKey, "shared-server", CommandKey]) == Some(JStr("global-command"))
      && Get(merged, [ServersKey, "shared-server", ArgsKey]) == Some(JArr(Wire(["global-arg"])))
  {
    SharedLocalEntry();
    SharedGlobalEntry();
    ServerFieldsMergeIndependently(SharedGlobal, SharedLocal, "shared-server", SharedLocalServer, EnabledKey);
    ServerFieldsMergeIndependently(SharedGlobal, SharedLocal, "shared-server", SharedLocalServer, DisabledToolsKey);
    ServerFieldsMergeIndependently(SharedGlobal, SharedLocal, "shared-server", SharedLocalServer, CommandKey);
    ServerFieldsMergeIndependently(SharedGlobal, SharedLocal, "shared-server", SharedLocalServer, ArgsKey);
  }
  // ---------------------------------------------------------------------
  // Merging nested settings

  const GlobalLlm: seq<Member> := [("provider", JStr("boto3")), ("model", JStr("global-model"))]
  const GlobalServer: seq<Member> := [(CommandKey, JStr("global-command")), (ArgsKey, JArr(Wire(["global-arg"])))]
  const GlobalEnv: seq<Member> := [("GLOBAL_VAR", JStr("global_value")), ("SHARED_VAR", JStr("global_shared"))]
  const GlobalDoc: seq<Member> := [
    (LlmKey, JObj(GlobalLlm)),
    (ServersKey, JObj([("global-server", JObj(GlobalServer))])),
    (EnvKey, JObj(GlobalEnv)),
    (EditorKey, JStr("nano"))]

  const LocalLlm: seq<Member> := [("model", JStr("local-model")), ("temperature", JNum("0.7"))]
  const LocalServer: seq<Member> := [(EnabledKey, JBool(true))]
  const LocalEnv: seq<Member> := [("LOCAL_VAR", JStr("local_value")), ("SHARED_VAR", JStr("local_shared"))]
  const LocalDoc: seq<Member> := [
    (LlmKey, JObj(LocalLlm)),
    (ServersKey, JObj([("global-server", JObj(LocalServer))])),
    (EnvKey, JObj(LocalEnv)),
    (PromptKey, JStr("Local prompt"))]

  lemma GlobalDocFields()
    ensures Lookup(GlobalDoc, LlmKey) == Some(JObj(GlobalLlm))
    ensures Lookup(GlobalDoc, ServersKey) == Some(JObj([("global-server", JObj(GlobalServer))]))
    ensures Lookup(GlobalDoc, EnvKey) == Some(JObj(GlobalEnv))
    ensures Lookup(GlobalDoc, EditorKey) == Some(JStr("nano"))
  {
    var d := GlobalDoc;
    assert Lookup(d, ServersKey) == Lookup(d[1..], ServersKey);
    assert Lookup(d, EnvKey) == Lookup(d[1..], EnvKey) == Lookup(d[2..], EnvKey);
    assert Lookup(d, EditorKey) == Lookup(d[1..], EditorKey) == Lookup(d[2..], EditorKey)
      == Lookup(d[3..], EditorKey);
  }

  lemma LocalDocFields()
    ensures Lookup(LocalDoc, LlmKey) == Some(JObj(LocalLlm))
    ensures Lookup(LocalDoc, ServersKey) == Some(JObj([("global-server", JObj(LocalServer))]))
    ensures Lookup(LocalDoc, EnvKey) == Some(JObj(LocalEnv))
    ensures Lookup(LocalDoc, PromptKey) == Some(JStr("Local prompt"))
    ensures Lookup(LocalDoc, EditorKey) == None
  {
    var d := LocalDoc;
    assert Lookup(d, ServersKey) == Lookup(d[1..], ServersKey);
    assert Lookup(d, EnvKey) == Lookup(d[1..], EnvKey) == Lookup(d[2..], EnvKey);
    assert Lookup(d, PromptKey) == Lookup(d[1..], PromptKey) == Lookup(d[2..], PromptKey)
      == Lookup(d[3..], PromptKey);
    assert Lookup(d, EditorKey) == Lookup(d[1..], EditorKey) == Lookup(d[2..], EditorKey)
      == Lookup(d[3..], EditorKey) == Lookup(d[4..], EditorKey);
  }

  // Paths two and three keys deep, stated through member lookups.

  lemma GetAt2(m: seq<Member>, a: string, b: string, n: seq<Member>, v: Json)
    requires Lookup(m, a) == Some(JObj(n)) && Lookup(n, b) == Some(v)
    ensures Get(JObj(m), [a, b]) == Some(v)
  {
    assert [a] + [b] == [a, b];
    GetCons(n, b, []);
    GetCons(m, a, [b]);
  }

  lemma GetAt3(m: seq<Member>, a: string, b: string, c: string, n: seq<Member>, p: seq<Member>, v: Json)
    requires Lookup(m, a) == Some(JObj(n)) && Lookup(n, b) == Some(JObj(p)) && Lookup(p, c) == Some(v)
    ensures Get(JObj(m), [a, b, c]) == Some(v)
  {
    assert [a] + [b, c] == [a, b, c];
    GetAt2(n, b, c, p, v);
    GetCons(m, a, [b, c]);
  }

  lemma SilentAt2(m: seq<Member>, a: string, b: string, n: seq<Member>)
    requires Lookup(m, a) == Some(JObj(n)) && Lookup(n, b) == None
    ensures Silent(JObj(m), [a, b])
  {
    assert [a] + [b] == [a, b];
    SilentCons(n, b, []);
    SilentCons(m, a, [b]);
  }

  lemma SilentAt3(m: seq<Member>, a: string, b: string, c: string, n: seq<Member>, p: seq<Member>)
    requires Lookup(m, a) == Some(JObj(n)) && Lookup(n, b) == Some(JObj(p)) && Lookup(p, c) == None
    ensures Silent(JObj(m), [a, b, c])
  {
    assert [a] + [b, c] == [a, b, c];
    SilentAt2(n, b, c, p);
    SilentCons(m, a, [b, c]);
  }

  // Merge facts at one, two and three levels of nesting, stated through
  // member lookups so that the concrete documents below need only those.

  lemma KeptAt1(g: seq<Member>, l: seq<Member>, a: string, v: Json)
    requires Lookup(g, a) == Some(v) && Lookup(l, a) == None
    ensures Get(Merge(JObj(g), JObj(l)), [a]) == Some(v)
  {
    assert Silent(JObj(l), [a]) by {
      SilentCons(l, a, []);
    }
    assert Get(JObj(g), [a]) == Some(v) by {
      GetCons(g, a, []);
    }
    GlobalFallback(JObj(g), JObj(l), [a]);
  }

  lemma WonAt1(g: seq<Member>, l: seq<Member>, a: string, v: Json)
    requires Lookup(l, a) == Some(v) && !v.JObj?
    ensures Get(Merge(JObj(g), JObj(l)), [a]) == Some(v)
  {
    GetCons(l, a, []);
    LocalLeafWins(JObj(g), JObj(l), [a], v);
  }

  lemma KeptAt2(g: seq<Member>, l: seq<Member>, a: string, b: string, gm: seq<Member>, lm: seq<Member>, v: Json)
    requires Lookup(g, a) == Some(JObj(gm)) && Lookup(gm, b) == Some(v)
    requires Lookup(l, a) == Some(JObj(lm)) && Lookup(lm, b) == None
    ensures Get(Merge(JObj(g), JObj(l)), [a, b]) == Some(v)
  {
    SilentAt2(l, a, b, lm);
    GetAt2(g, a, b, gm, v);
    GlobalFallback(JObj(g), JObj(l), [a, b]);
  }

  lemma WonAt2(g: seq<Member>, l: seq<Member>, a: string, b: string, lm: seq<Member>, v: Json)
    requires Lookup(l, a) == Some(JObj(lm)) && Lookup(lm, b) == Some(v) && !v.JObj?
    ensures Get(Merge(JObj(g), JObj(l)), [a, b]) == Some(v)
  {
    GetAt2(l, a, b, lm, v);
    LocalLeafWins(JObj(g), JObj(l), [a, b], v);
  }

  lemma KeptAt3(g: seq<Member>, l: seq<Member>, a: string, b: string, c: string,
                gm: seq<Member>, gn: seq<Member>, lm: seq<Member>, ln: seq<Member>, v: Json)
    requires Lookup(g, a) == Some(JObj(gm)) && Lookup(gm, b) == Some(JObj(gn)) && Lookup(gn, c) == Some(v)
    requires Lookup(l, a) == Some(JObj(lm)) && Lookup(lm, b) == Some(JObj(ln)) && Lookup(ln, c) == None
    ensures Get(Merge(JObj(g), JObj(l)), [a, b, c]) == Some(v)
  {
    SilentAt3(l, a, b, c, lm, ln);
    GetAt3(g, a, b, c, gm, gn, v);
    GlobalFallback(JObj(g), JObj(l), [a, b, c]);
  }

  lemma WonAt3(g: seq<Member>, l: seq<Member>, a: string, b: string, c: string,
               lm: seq<Member>, ln: seq<Member>, v: Json)
    requires Lookup(l, a) == Some(JObj(lm)) && Lookup(lm, b) == Some(JObj(ln))
    requires Lookup(ln, c) == Some(v) && !v.JObj?
    ensures Get(Merge(JObj(g), JObj(l)), [a, b, c]) == Some(v)
  {
    GetAt3(l, a, b, c, lm, ln, v);
    LocalLeafWins(JObj(g), JObj(l), [a, b, c], v);
  }

  /** `llm`: the global provider survives, the local model and temperature win. */
  lemma LlmMerge()
    ensures
      var merged := Merge(JObj(GlobalDoc), JObj(LocalDoc));
      && Get(merged, [LlmKey, "provider"]) == Some(JStr("boto3"))
      && Get(merged, [LlmKey, "model"]) == Some(JStr("local-model"))
      && Get(merged, [LlmKey, "temperature"]) == Some(JNum("0.7"))
  {
    GlobalDocFields();
    LocalDocFields();
    assert Lookup(LocalLlm, "provider") == None;
    KeptAt2(GlobalDoc, LocalDoc, LlmKey, "provider", GlobalLlm, LocalLlm, JStr("boto3"));
    WonAt2(GlobalDoc, LocalDoc, LlmKey, "model", LocalLlm, JStr("local-model"));
    assert Lookup(LocalLlm, "temperature") == Some(JNum("0.7"));
    WonAt2(GlobalDoc, LocalDoc, LlmKey, "temperature", LocalLlm, JNum("0.7"));
  }

  /** `mcpServers`: the local `enabled` is added to the global server entry, which keeps its command. */
  lemma ServerEntryMerge()
    ensures
      var merged := Merge(JObj(GlobalDoc), JObj(LocalDoc));
      && Get(merged, [ServersKey, "global-server", EnabledKey]) == Some(JBool(true))
      && Get(merged, [ServersKey, "global-server", CommandKey]) == Some(JStr("global-command"))
  {
    GlobalDocFields();
    LocalDocFields();
    var gs, ls := [("global-server", JObj(GlobalServer))], [("global-server", JObj(LocalServer))];
    WonAt3(GlobalDoc, LocalDoc, ServersKey, "global-server", EnabledKey, ls, LocalServer, JBool(true));
    assert Lookup(LocalServer, CommandKey) == None;
    KeptAt3(GlobalDoc, LocalDoc, ServersKey, "global-server", CommandKey, gs, GlobalServer, ls, LocalServer,
            JStr("global-command"));
  }

  lemma EnvFields()
    ensures Lookup(GlobalEnv, "GLOBAL_VAR") == Some(JStr("global_value"))
    ensures Lookup(LocalEnv, "GLOBAL_VAR") == None
    ensures Lookup(LocalEnv, "LOCAL_VAR") == Some(JStr("local_value"))
    ensures Lookup(LocalEnv, "SHARED_VAR") == Some(JStr("local_shared"))
  {
    assert "SHARED_VAR"[0] != "GLOBAL_VAR"[0];
    assert "SHARED_VAR"[0] != "LOCAL_VAR"[0];
  }

  /** `env`: variables of both layers are present and the local value of a shared one wins. */
  lemma EnvMerge()
    ensures
      var merged := Merge(JObj(GlobalDoc), JObj(LocalDoc));
      && Get(merged, [EnvKey, "GLOBAL_VAR"]) == Some(JStr("global_value"))
      && Get(merged, [EnvKey, "LOCAL_VAR"]) == Some(JStr("local_value"))
      && Get(merged, [EnvKey, "SHARED_VAR"]) == Some(JStr("local_shared"))
  {
    GlobalDocFields();
    LocalDocFields();
    EnvFields();
    KeptAt2(GlobalDoc, LocalDoc, EnvKey, "GLOBAL_VAR", GlobalEnv, LocalEnv, JStr("global_value"));
    WonAt2(GlobalDoc, LocalDoc, EnvKey, "LOCAL_VAR", LocalEnv, JStr("local_value"));
    WonAt2(GlobalDoc, LocalDoc, EnvKey, "SHARED_VAR", LocalEnv, JStr("local_shared"));
  }

  /** The local-only `systemPrompt` and the global-only `editor` both survive. */
  lemma TopLevelMerge()
    ensures
      var merged := Merge(JObj(GlobalDoc), JObj(LocalDoc));
      && Get(merged, [PromptKey]) == Some(JStr("Local prompt"))
      && Get(merged, [EditorKey]) == Some(JStr("nano"))
  {
    GlobalDocFields();
    LocalDocFields();
    WonAt1(GlobalDoc, LocalDoc, PromptKey, JStr("Local prompt"));
    KeptAt1(GlobalDoc, LocalDoc, EditorKey, JStr("nano"));
  }
}
