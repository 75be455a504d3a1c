/**
 * Loading the two configuration layers and combining them: each layer is
 * read (an absent file is the empty document), the local layer is merged
 * over the global one, and the result is parsed against the root.
 */
module ConfigLoader {
  import opened Wrappers
  import opened JsonValue
  import opened JsonMerge
  import opened CouldYouConfig

  /** The document of one layer; a layer with no file is the empty document, not an error. */
  function LoadRaw(layer: Option<Json>): (doc: Json)
    ensures layer.None? ==> doc == JObj([])
    ensures layer.Some? ==> doc == layer.value
  {
    match layer
    case None => JObj([])
    case Some(d) => d
  }

  /** Load the global and local layers, merge the local over the global, and parse. */
  function Load(global: Option<Json>, local: Option<Json>, root: string): (r: Result<Config, Error>)
    ensures r.Success? ==> r.value.root == root
  {
    ParseFromJson(Merge(LoadRaw(global), LoadRaw(local)), root)
  }

  /** With neither layer present the configuration is empty, rooted at the caller's root. */
  lemma NoLayers(root: string)
    ensures Load(None, None, root) == Success(Config(None, [], [], map[], None, root))
  {
    MergeEmptyBase([]);
    ParseEmptyDocument(root);
  }

  /** An absent local layer leaves the global layer's configuration. */
  lemma OnlyGlobalLayer(gm: seq<Member>, root: string)
    ensures Load(Some(JObj(gm)), None, root) == ParseFromJson(JObj(gm), root)
  {
    MergeEmptyOverride(gm);
  }

  /** An absent global layer leaves the local layer's configuration. */
  lemma OnlyLocalLayer(lm: seq<Member>, root: string)
    ensures Load(None, Some(JObj(lm)), root) == ParseFromJson(JObj(lm), root)
  {
    MergeEmptyBase(lm);
  }

  /**
   * The top-level string settings (`systemPrompt`, `editor`) come from the
   * local layer when it sets them and from the global layer otherwise.
   */
  lemma ScalarSettingsPrecedence(gm: seq<Member>, lm: seq<Member>, root: string)
    requires Load(Some(JObj(gm)), Some(JObj(lm)), root).Success?
    ensures WireOption(Load(Some(JObj(gm)), Some(JObj(lm)), root).value.prompt) ==
      if PromptKey in KeySeq(lm) then Field(lm, PromptKey) else Field(gm, PromptKey)
    ensures WireOption(Load(Some(JObj(gm)), Some(JObj(lm)), root).value.editor) ==
      if EditorKey in KeySeq(lm) then Field(lm, EditorKey) else Field(gm, EditorKey)
  {
    assert Merge(JObj(gm), JObj(lm)) == JObj(MergeMembers(gm, lm));
    MergedScalar(gm, lm, PromptKey);
    MergedScalar(gm, lm, EditorKey);
  }

  /** A merged top-level field that is not an object is the local one when the local layer has the key. */
  lemma MergedScalar(gm: seq<Member>, lm: seq<Member>, key: string)
    ensures !(Field(MergeMembers(gm, lm), key).Some? && Field(MergeMembers(gm, lm), key).value.JObj?) ==>
      Field(MergeMembers(gm, lm), key) == if key in KeySeq(lm) then Field(lm, key) else Field(gm, key)
  {
    MergeLookup(gm, lm, key);
  }

  /**
   * Inside one server entry, fields merge independently: a field the local
   * entry omits keeps the global value, and a field it sets to anything but
   * an object (an array such as `disabledTools` included) is the local value.
   */
  lemma ServerFieldsMergeIndependently(g: Json, l: Json, name: string, lsm: seq<Member>, key: string)
    requires Get(l, [ServersKey, name]) == Some(JObj(lsm))
    ensures key !in KeySeq(lsm) ==>
      Get(Merge(g, l), [ServersKey, name, key]) == Get(g, [ServersKey, name, key])
    ensures key in KeySeq(lsm) && !Lookup(lsm, key).value.JObj? ==>
      Get(Merge(g, l), [ServersKey, name, key]) == Lookup(lsm, key)
  {
    var path := [ServersKey, name, key];
    assert [ServersKey] + [name] == [ServersKey, name];
    assert [name] + [key] == [name, key];
    assert [ServersKey] + [name, key] == path;
    GetCons(l.members, ServersKey, [name]);
    var servers := Lookup(l.members, ServersKey).value;
    GetCons(servers.members, name, []);
    assert Lookup(servers.members, name) == Some(JObj(lsm));
    if key !in KeySeq(lsm) {
      assert Silent(l, path) by {
        SilentCons(lsm, key, []);
        SilentCons(servers.members, name, [key]);
        SilentCons(l.members, ServersKey, [name, key]);
      }
      GlobalFallback(g, l, path);
    } else if !Lookup(lsm, key).value.JObj? {
      assert Get(l, path) == Lookup(lsm, key) by {
        GetCons(lsm, key, []);
        GetCons(servers.members, name, [key]);
        GetCons(l.members, ServersKey, [name, key]);
      }
      LocalLeafWins(g, l, path, Lookup(lsm, key).value);
    }
  }
}
