/**
 * The four file entries of the drizzle tests: for each, the path it targets
 * (computed from the workspace), the condition under which it applies, and
 * its content function.
 */
module DrizzleFiles {
  import opened Wrappers
  import opened Text
  import opened Json
  import opened AdderConfig
  import opened DrizzleTemplates

  /** The file entries, one per target file. */
  datatype FileEntry = SveltePage | ServerLoad | DrizzleConfig | PackageJson

  /** The entries in their declared order. */
  const Files: seq<FileEntry> := [SveltePage, ServerLoad, DrizzleConfig, PackageJson]

  /** The text `${kit?.routesDirectory}`: without SvelteKit it renders as "undefined". */
  function RoutesDirectoryText(ws: Workspace): string
  {
    match ws.kit
    case Some(k) => k.routesDirectory
    case None => "undefined"
  }

  /** The file extension of a module in the workspace's language. */
  function Extension(typescript: bool): (e: string)
    ensures e == "ts" <==> typescript
    ensures e == "ts" || e == "js"
  {
    if typescript then "ts" else "js"
  }

  /** The `name` function of each entry: the path of its target file. */
  function Name(f: FileEntry, ws: Workspace): string
  {
    match f
    case SveltePage => RoutesDirectoryText(ws) + "/+page.svelte"
    case ServerLoad => RoutesDirectoryText(ws) + "/+page.server." + Extension(ws.typescript)
    case DrizzleConfig => "drizzle.config." + Extension(ws.typescript)
    case PackageJson => "package.json"
  }

  /** The `contentType` of each entry. */
  function ContentTypeOf(f: FileEntry): ContentType
  {
    match f
    case SveltePage => SvelteContent
    case ServerLoad => ScriptContent
    case DrizzleConfig => TextContent
    case PackageJson => JsonContent
  }

  /** The entry declares a `condition`. */
  predicate HasCondition(f: FileEntry)
  {
    f != PackageJson
  }

  /** The condition every conditional entry declares: `Boolean(kit)`. */
  predicate KitPresent(ws: Workspace)
  {
    ws.kit.Some?
  }

  /** The entry applies to the workspace: it has no condition, or its condition holds. */
  predicate Applies(f: FileEntry, ws: Workspace)
  {
    !HasCondition(f) || KitPresent(ws)
  }

  /** `s` ends with `suffix`. */
  predicate EndsWith(s: string, suffix: string)
  {
    |suffix| <= |s| && s[|s| - |suffix|..] == suffix
  }

  /** `s` starts with `prefix`. */
  predicate StartsWith(s: string, prefix: string)
  {
    |prefix| <= |s| && s[..|prefix|] == prefix
  }

  /**
   * The svelte, script and text entries apply exactly in a SvelteKit project;
   * the manifest entry always applies.
   */
  lemma AppliesExactlyWithKit(f: FileEntry, ws: Workspace)
    ensures f != PackageJson ==> (Applies(f, ws) <==> ws.kit.Some?)
    ensures Applies(PackageJson, ws)
  {
  }

  /**
   * The server module and the drizzle configuration are `.ts` files in a
   * TypeScript project and `.js` files otherwise.
   */
  lemma ExtensionFollowsLanguage(f: FileEntry, ws: Workspace)
    requires f == ServerLoad || f == DrizzleConfig
    ensures EndsWith(Name(f, ws), ".ts") <==> ws.typescript
    ensures EndsWith(Name(f, ws), ".js") <==> !ws.typescript
  {
    var stem := if f == ServerLoad then RoutesDirectoryText(ws) + "/+page.server" else "drizzle.config";
    var n, e := Name(f, ws), Extension(ws.typescript);
    var suffix := "." + e;
    assert n == stem + suffix;
    assert n[|n| - 3..] == suffix;
    assert suffix[1..] == e;
  }

  /**
   * In a SvelteKit project the page and its server module both lie in the
   * routes directory, as `+page.svelte` and `+page.server.<ext>`.
   */
  lemma PageFilesInRoutesDirectory(ws: Workspace)
    requires ws.kit.Some?
    ensures var dir := ws.kit.value.routesDirectory + "/";
      && StartsWith(Name(SveltePage, ws), dir)
      && StartsWith(Name(ServerLoad, ws), dir)
      && Name(SveltePage, ws)[|dir|..] == "+page.svelte"
      && Name(ServerLoad, ws)[|dir|..] == "+page.server." + Extension(ws.typescript)
  {
    var dir := ws.kit.value.routesDirectory + "/";
    assert Name(SveltePage, ws) == dir + "+page.svelte";
    assert Name(ServerLoad, ws) == dir + "+page.server." + Extension(ws.typescript);
  }

  /**
   * Without SvelteKit the page paths render the directory as "undefined";
   * exactly those entries do not apply there.
   */
  lemma PagePathsWithoutKit(f: FileEntry, ws: Workspace)
    requires ws.kit.None? && (f == SveltePage || f == ServerLoad)
    ensures StartsWith(Name(f, ws), "undefined/") && !Applies(f, ws)
  {
    assert Name(f, ws) == "undefined/" + Name(f, ws)[10..];
  }

  /** Whatever the workspace, the four entries target four different files. */
  lemma NamesDistinct(f: FileEntry, g: FileEntry, ws: Workspace)
    requires f != g
    ensures Name(f, ws) != Name(g, ws)
  {
    var d := RoutesDirectoryText(ws);
    var e := Extension(ws.typescript);
    var cfg := "drizzle.config." + e;
    if {f, g} == {SveltePage, ServerLoad} {
      assert |Name(SveltePage, ws)| == |d| + 13;
      assert |Name(ServerLoad, ws)| == |d| + 16;
    } else if {f, g} == {SveltePage, DrizzleConfig} {
      var n := Name(SveltePage, ws);
      if |n| == |cfg| {
        assert |d| == 4 && n[4] == '/' && cfg[4] == 'z';
      }
    } else if {f, g} == {ServerLoad, DrizzleConfig} {
      var n := Name(ServerLoad, ws);
      if |n| == |cfg| {
        assert |d| == 1 && n[1] == '/' && cfg[1] == 'r';
      }
    } else {
      assert PackageJson in {f, g};
      assert |Name(SveltePage, ws)| >= 13 && |Name(ServerLoad, ws)| >= 16;
      assert |Name(DrizzleConfig, ws)| == 17 && |Name(PackageJson, ws)| == 12;
    }
  }

  // ---- The text entry: drizzle.config.(ts|js) ----

  /** The setting the tests take out of the drizzle configuration. */
  const StrictMode := "strict: true,"

  /** The content function of the text entry: `content.replace('strict: true,', '')`. */
  function DrizzleConfigContent(content: string): (r: string)
    ensures !Contains(content, StrictMode) ==> r == content
    ensures Contains(content, StrictMode) ==> |r| == |content| - |StrictMode|
  {
    Replace(content, StrictMode, "")
  }

  /** With `strict: true,` first occurring at `i`, the rewrite deletes that occurrence. */
  lemma StrictModeDeletedAt(content: string, i: nat)
    requires OccursAt(content, StrictMode, i)
    requires forall j: nat :: j < i ==> !OccursAt(content, StrictMode, j)
    ensures DrizzleConfigContent(content) == content[..i] + content[i + |StrictMode|..]
  {
    assert content[..i] + "" == content[..i];
  }

  /**
   * With `strict: true,` first occurring at `i`, only that occurrence goes:
   * re-inserting the setting at `i` gives back the original, and every later
   * occurrence is still there, 13 characters earlier.
   */
  lemma StrictModeRemovedOnce(content: string, i: nat)
    requires OccursAt(content, StrictMode, i)
    requires forall j: nat :: j < i ==> !OccursAt(content, StrictMode, j)
    ensures var r := DrizzleConfigContent(content);
      && r[..i] + StrictMode + r[i..] == content
      && forall j: nat :: i + |StrictMode| <= j && OccursAt(content, StrictMode, j) ==>
           OccursAt(r, StrictMode, j - |StrictMode|)
  {
    DeleteFirstKeepsRest(content, StrictMode, i);
  }

  /**
   * The rewrite is not idempotent: a configuration that repeats the setting
   * loses one occurrence per application.
   */
  lemma DrizzleConfigContentNotIdempotent()
    ensures var c := StrictMode + StrictMode;
      DrizzleConfigContent(c) == StrictMode && DrizzleConfigContent(DrizzleConfigContent(c)) == ""
  {
    var c := StrictMode + StrictMode;
    StrictModeDeletedAt(c, 0);
    assert c[13..] == StrictMode;
    StrictModeDeletedAt(StrictMode, 0);
  }

  // ---- The json entry: package.json ----

  /** The script the tests run after installing dependencies. */
  const PostinstallCommand := "pnpm run db:push"

  /** The TypeErrors the manifest content function can throw. */
  datatype TypeError =
    | CannotReadProperty(property: string)    // reading a property of undefined or null
    | CannotCreateProperty(property: string)  // assigning a property on a primitive (strict mode)

  /** The members of `data.scripts`, when that is an object. */
  function ScriptsObject(data: JsonValue): Option<seq<Member>>
  {
    if data.JObject? then
      match Get(data.members, "scripts")
      case Some(JObject(ms)) => Some(ms)
      case _ => None
    else None
  }

  /** What `data.scripts` holds: None when the manifest has no such member. */
  function ScriptsValue(data: JsonValue): Option<JsonValue>
  {
    if data.JObject? then Get(data.members, "scripts") else None
  }

  /**
   * The content function of the json entry:
   * `data.scripts['postinstall'] ??= 'pnpm run db:push'`, which changes the
   * parsed manifest in place. An array `scripts` takes the property as a
   * non-index property, which serialization drops, so the manifest is
   * unchanged in that case.
   */
  function PackageJsonContent(data: JsonValue): (r: Result<JsonValue, TypeError>)
    ensures r.Success? <==> ScriptsValue(data).Some? && (ScriptsValue(data).value.JObject? || ScriptsValue(data).value.JArray?)
    ensures data.JNull? ==> r == Failure(CannotReadProperty("scripts"))
    ensures !data.JNull? && Nullish(ScriptsValue(data)) ==> r == Failure(CannotReadProperty("postinstall"))
    ensures ScriptsValue(data).Some? && ScriptsValue(data).value.JArray? ==> r == Success(data)
    ensures r.Success? ==> r.value.JObject? && Keys(r.value.members) == Keys(data.members)
    ensures r.Success? ==> forall k :: k != "scripts" ==> Get(r.value.members, k) == Get(data.members, k)
    ensures ScriptsObject(data).Some? ==> (
      && r.Success? && ScriptsObject(r.value).Some?
      && var before, after := ScriptsObject(data).value, ScriptsObject(r.value).value;
         && Get(after, "postinstall") ==
              (if Nullish(Get(before, "postinstall")) then Some(JString(PostinstallCommand)) else Get(before, "postinstall"))
         && (forall k :: k != "postinstall" ==> Get(after, k) == Get(before, k))
         && Keys(after) == if "postinstall" in Keys(before) then Keys(before) else Keys(before) + ["postinstall"])
  {
    if data.JNull? then Failure(CannotReadProperty("scripts"))
    else
      match ScriptsValue(data)
      case None => Failure(CannotReadProperty("postinstall"))
      case Some(JNull) => Failure(CannotReadProperty("postinstall"))
      case Some(JObject(ms)) => Success(UpdateScripts(data, ms))
      case Some(JArray(_)) => Success(data)
      case Some(_) => Failure(CannotCreateProperty("postinstall"))
  }

  /** The transform on a manifest whose `scripts` is the object `ms`. */
  function UpdateScripts(data: JsonValue, ms: seq<Member>): (r: JsonValue)
    requires data.JObject? && Get(data.members, "scripts") == Some(JObject(ms))
    ensures r.JObject? && Keys(r.members) == Keys(data.members)
    ensures forall k :: k != "scripts" ==> Get(r.members, k) == Get(data.members, k)
    ensures ScriptsObject(r).Some?
    ensures var after := ScriptsObject(r).value;
      && Get(after, "postinstall") ==
           (if Nullish(Get(ms, "postinstall")) then Some(JString(PostinstallCommand)) else Get(ms, "postinstall"))
      && (forall k :: k != "postinstall" ==> Get(after, k) == Get(ms, k))
      && Keys(after) == if "postinstall" in Keys(ms) then Keys(ms) else Keys(ms) + ["postinstall"]
  {
    ManifestKeysNotIndices();
    var scripts := AssignIfNullish(ms, "postinstall", JString(PostinstallCommand));
    var out := SetMember(data.members, "scripts", JObject(scripts));
    assert ScriptsObject(JObject(out)) == Some(scripts);
    JObject(out)
  }

  /** The two member names the transform writes are ordinary, non-index keys. */
  lemma ManifestKeysNotIndices()
    ensures !ArrayIndexKey("scripts") && !ArrayIndexKey("postinstall")
  {
    assert "scripts"[0] == 's' && "postinstall"[0] == 'p';
  }

  /** Running the manifest transform a second time changes nothing. */
  lemma PackageJsonContentIdempotent(data: JsonValue)
    requires PackageJsonContent(data).Success?
    ensures PackageJsonContent(PackageJsonContent(data).value) == PackageJsonContent(data)
  {
    var d' := PackageJsonContent(data).value;
    ManifestKeysNotIndices();
    if ScriptsObject(data).Some? {
      var s' := ScriptsObject(d').value;
      assert !Nullish(Get(s', "postinstall"));
      assert AssignIfNullish(s', "postinstall", JString(PostinstallCommand)) == s';
      SetMemberSameValue(d'.members, "scripts", JObject(s'));
      assert PackageJsonContent(d') == Success(JObject(d'.members));
    }
  }

  /**
   * An existing, non-null `postinstall` script is kept: the whole manifest is
   * left as it was.
   */
  lemma ExistingPostinstallKept(data: JsonValue)
    requires ScriptsObject(data).Some? && !Nullish(Get(ScriptsObject(data).value, "postinstall"))
    ensures PackageJsonContent(data) == Success(data)
  {
    var ms := ScriptsObject(data).value;
    ManifestKeysNotIndices();
    assert AssignIfNullish(ms, "postinstall", JString(PostinstallCommand)) == ms;
    SetMemberSameValue(data.members, "scripts", JObject(ms));
    assert UpdateScripts(data, ms) == data;
  }

  /** The transform keeps member names unique, in the manifest and in its scripts. */
  lemma PackageJsonContentKeepsUniqueKeys(data: JsonValue)
    requires ScriptsObject(data).Some?
    requires UniqueKeys(data.members) && UniqueKeys(ScriptsObject(data).value)
    ensures UniqueKeys(PackageJsonContent(data).value.members)
    ensures UniqueKeys(ScriptsObject(PackageJsonContent(data).value).value)
  {
    var ms := ScriptsObject(data).value;
    ManifestKeysNotIndices();
    if Nullish(Get(ms, "postinstall")) {
      SetMemberKeepsUnique(ms, "postinstall", JString(PostinstallCommand));
    }
    SetMemberKeepsUnique(data.members, "scripts", JObject(AssignIfNullish(ms, "postinstall", JString(PostinstallCommand))));
  }

  // ---- The svelte and script entries, on abstract syntax trees ----

  /**
   * A parsed script, as the sequence of source fragments appended to it; the
   * parser that turns a fragment into statements is not modelled.
   */
  class ScriptAst {
    var body: seq<string>

    constructor (body: seq<string>)
      ensures this.body == body
    {
      this.body := body;
    }

    /** `common.addFromString(ast, code)`: appends the statements of `code`. */
    method AddFromString(code: string)
      modifies this
      ensures body == old(body) + [code]
    {
      body := body + [code];
    }
  }

  /** The markup of a component, as its sequence of top-level child nodes. */
  class HtmlAst {
    var childNodes: seq<string>

    constructor (childNodes: seq<string>)
      ensures this.childNodes == childNodes
    {
      this.childNodes := childNodes;
    }

    /** `addFromRawHtml(htmlAst.childNodes, html)`: appends the nodes parsed from `html`. */
    method AddFromRawHtml(html: string)
      modifies this
      ensures childNodes == old(childNodes) + [html]
    {
      childNodes := childNodes + [html];
    }
  }

  /**
   * The content function of the svelte entry: the page receives `data` and
   * renders one row per user; nothing that was there before is removed.
   */
  method SveltePageContent(jsAst: ScriptAst, htmlAst: HtmlAst)
    modifies jsAst, htmlAst
    ensures jsAst.body == old(jsAst.body) + [ExportData]
    ensures htmlAst.childNodes == old(htmlAst.childNodes) + [UsersMarkup]
  {
    jsAst.AddFromString(ExportData);
    htmlAst.AddFromRawHtml(UsersMarkup);
  }

  /** The content function of the script entry: appends the server module. */
  method ServerLoadContent(ast: ScriptAst, ws: Workspace)
    modifies ast
    ensures ast.body == old(ast.body) + [ServerScript(ws.typescript)]
  {
    ast.AddFromString(ServerScript(ws.typescript));
  }
}
