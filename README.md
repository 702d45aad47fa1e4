# Drizzle add-on test fixture, modelled in Dafny

The drizzle add-on of the Svelte CLI ships a test fixture
(`packages/adders/drizzle/config/tests.ts`). It declares:

- an **option-value matrix**: four answer records, one per supported database
  and driver, each built by spreading the defaults record and overriding a
  few keys;
- four **file transforms** that run after the add-on is applied to a scratch
  project:
  - a demo `+page.svelte` rendering a list of users, each carrying a
    `data-test-id` attribute;
  - a `+page.server.{ts,js}` load function that inserts one user and then
    selects all of them;
  - a rewrite of `drizzle.config.{ts,js}` removing the first `strict: true,`;
  - a `package.json` edit that defaults `scripts.postinstall` to
    `pnpm run db:push`;
- one **browser test**, which looks for an element with a `data-test-id`
  attribute.

The model has one module per concern:

- `Wrappers`: `Option` and `Result`.
- `Text`: JavaScript string search, and `String.prototype.replace` with a
  string pattern and a replacement free of `$`, which replaces the first
  occurrence only.
- `Json`: JSON values, with objects as ordered member lists. `Get` is property
  read. `SetMember` is property assignment to a key that is not an array
  index, which keeps insertion order. `AssignIfNullish` is the `??=` operator
  on such a key.
- `AdderConfig`: the vocabulary of `packages/core/adder/config.ts` that the
  fixture uses (workspace, content types, test steps, test definitions, the
  test configuration record).
- `DrizzleOptions`: the defaults record, object spread and the four scenarios.
- `DrizzleTemplates`: the literal code and markup the page transforms inject.
- `DrizzleFiles`: the four file entries, giving each one's name, condition and
  content function. The two AST transforms are methods on small AST classes.
  The text and json transforms are functions, and the json one models the
  TypeErrors JavaScript would throw.
- `DrizzleTests`: the test list and the assembled test configuration.

The workspace is reduced to `kit` (present or absent, with its routes
directory) and `typescript`. The option definition, which lives in the
add-on's `options.ts`, is a parameter holding each question's default answer.

Two properties of the code are worth stating up front:

- The manifest edit uses `??=`, so an existing `postinstall` command is kept
  (`DrizzleFiles.ExistingPostinstallKept`).
- The config rewrite is not idempotent: a config that repeats `strict: true,`
  loses one copy per run (`DrizzleFiles.DrizzleConfigContentNotIdempotent`).

## Model

| member | source | states |
|---|---|---|
| Text.IndexOf | packages/adders/drizzle/config/tests.ts:76 | the search `replace` performs: None exactly when the pattern does not occur, otherwise the first index at which it occurs |
| Text.Replace | packages/adders/drizzle/config/tests.ts:76 | `replace` with a string pattern: input unchanged when the pattern is absent, otherwise the first occurrence, and only it, replaced |
| Text.DeletionKeepsRest | packages/adders/drizzle/config/tests.ts:76 | deleting one occurrence keeps the text around it, and later occurrences shift left by the pattern's length |
| Json.Get | packages/adders/drizzle/config/tests.ts:84 | a property read: None exactly when the key is absent; a found value is a member of the object |
| Json.SetMember | packages/adders/drizzle/config/tests.ts:84 | property assignment: the key then reads the new value, every other key reads as before, and the key list is unchanged or has the new key appended |
| Json.SetMemberKeepsUnique | packages/adders/drizzle/config/tests.ts:84 | assignment never duplicates a key |
| Json.SetMemberSameValue | packages/adders/drizzle/config/tests.ts:84 | assigning a key the value it already has leaves the object unchanged |
| Json.AssignIfNullish | packages/adders/drizzle/config/tests.ts:84 | `??=`: an absent or null key gets the value, a present non-null key keeps its own, and other keys and the key order are kept |
| Json.AssignIfNullishIdempotent | packages/adders/drizzle/config/tests.ts:84 | applying `??=` twice with the same value equals applying it once, for any value including `null` |
| DrizzleOptions.Spread | packages/adders/drizzle/config/tests.ts:21-24 | `{ ...base, fields }`: the keys are the base's keys plus the fields' keys, a key no field sets keeps the base value, and the last field of a key wins |
| DrizzleOptions.OptionValueMatrix | packages/adders/drizzle/config/tests.ts:20-25 | four records; record `i` has the defaults' keys plus `database`, keeps every key it does not override at its default, names its database and driver, and has `docker` on exactly for a server database; no two records are equal |
| DrizzleOptions.ScenarioKeepsDefaults | packages/adders/drizzle/config/tests.ts:9-25 | each scenario has the defaults' keys plus `database`, and every key it does not override keeps its default |
| DrizzleOptions.ScenarioSelectsDriver | packages/adders/drizzle/config/tests.ts:21-24 | each scenario answers `database` and sets the driver option named after that database to the listed driver |
| DrizzleOptions.DockerOnlyForServerDatabases | packages/adders/drizzle/config/tests.ts:21-24 | `docker` is true for the mysql and postgresql scenarios; the sqlite ones keep its default |
| DrizzleOptions.ScenariosDistinct | packages/adders/drizzle/config/tests.ts:20-25 | no two scenarios of the matrix are equal, whatever the defaults |
| DrizzleTemplates.InsertUserParameter | packages/adders/drizzle/config/tests.ts:63 | the parameter is the typed `$inferInsert` one exactly in TypeScript |
| DrizzleTemplates.ServerScriptSplits | packages/adders/drizzle/config/tests.ts:51-66 | the server script is the fixed head, the parameter, then the fixed tail |
| DrizzleTemplates.ServerScriptAnnotatedIffTypescript | packages/adders/drizzle/config/tests.ts:51-66 | the injected load script contains the type annotation exactly in a TypeScript project |
| DrizzleTemplates.PlainScriptIsTypedScriptUnannotated | packages/adders/drizzle/config/tests.ts:51-66 | the JavaScript script is the TypeScript one with its one annotation replaced by the untyped parameter |
| DrizzleTemplates.MarkupCarriesTestId | packages/adders/drizzle/config/tests.ts:35-39 | the injected markup writes a ` data-test-id=` attribute right after the row's `<span` tag |
| DrizzleFiles.Extension | packages/adders/drizzle/config/tests.ts:45 | the extension is `ts` exactly in TypeScript and `js` otherwise |
| DrizzleFiles.AppliesExactlyWithKit | packages/adders/drizzle/config/tests.ts:26-86 | the three code and config entries run exactly when kit is present; `package.json` always runs |
| DrizzleFiles.ExtensionFollowsLanguage | packages/adders/drizzle/config/tests.ts:44-72 | the server file and the drizzle config end in `.ts` exactly in TypeScript and in `.js` otherwise |
| DrizzleFiles.PageFilesInRoutesDirectory | packages/adders/drizzle/config/tests.ts:28-45 | with kit present, both page files lie directly in the kit's routes directory |
| DrizzleFiles.PagePathsWithoutKit | packages/adders/drizzle/config/tests.ts:28-47 | without kit the page names begin with `undefined/`, and those entries do not run then |
| DrizzleFiles.NamesDistinct | packages/adders/drizzle/config/tests.ts:26-86 | the four entries target four different paths in every workspace |
| DrizzleFiles.DrizzleConfigContent | packages/adders/drizzle/config/tests.ts:75-77 | the config is unchanged when it lacks `strict: true,`, and otherwise is exactly 13 characters shorter |
| DrizzleFiles.StrictModeDeletedAt | packages/adders/drizzle/config/tests.ts:76 | the result is the text before the first `strict: true,` joined to the text after it |
| DrizzleFiles.StrictModeRemovedOnce | packages/adders/drizzle/config/tests.ts:76 | re-inserting the pattern at its first index rebuilds the input, and later occurrences shift left by 13 |
| DrizzleFiles.DrizzleConfigContentNotIdempotent | packages/adders/drizzle/config/tests.ts:76 | a config holding the pattern twice loses one copy per run, so the transform is not idempotent |
| DrizzleFiles.PackageJsonContent | packages/adders/drizzle/config/tests.ts:82-85 | errors for a null manifest, nullish scripts and primitive scripts; an array `scripts` leaves the manifest unchanged; otherwise `postinstall` follows `??=` and every other key and the key orders are kept |
| DrizzleFiles.PackageJsonContentIdempotent | packages/adders/drizzle/config/tests.ts:84 | running the json transform on its own output changes nothing |
| DrizzleFiles.ExistingPostinstallKept | packages/adders/drizzle/config/tests.ts:84 | a manifest with a non-null `postinstall` is returned unchanged |
| DrizzleFiles.PackageJsonContentKeepsUniqueKeys | packages/adders/drizzle/config/tests.ts:84 | a manifest with unique keys, top level and in `scripts`, keeps them unique |
| DrizzleFiles.ScriptAst.AddFromString | packages/adders/drizzle/config/tests.ts:32 | adding code to a script AST appends that fragment after the existing body, nothing else changed |
| DrizzleFiles.HtmlAst.AddFromRawHtml | packages/adders/drizzle/config/tests.ts:33-40 | adding raw markup appends that fragment after the existing child nodes |
| DrizzleFiles.SveltePageContent | packages/adders/drizzle/config/tests.ts:31-41 | the script gains `export let data;` and the template gains the users list, with nothing else changed |
| DrizzleFiles.ServerLoadContent | packages/adders/drizzle/config/tests.ts:48-68 | the script gains the load script for the workspace's language, with nothing else changed |
| DrizzleTests.ProbesTargetInjectedMarkup | packages/adders/drizzle/config/tests.ts:90-97 | every step of the one test is an `elementExists` on an `[attribute]` selector, and the injected markup writes that attribute |
| Text.DeleteFirstKeepsRest | packages/adders/drizzle/config/tests.ts:76 | replacing the first occurrence by nothing cuts exactly that occurrence: re-inserting it restores the input, and later occurrences shift left by the pattern's length |
| DrizzleOptions.DefaultOptionValues | packages/adders/drizzle/config/tests.ts:9-14 | the defaults record: its keys and values are used by `ScenarioKeepsDefaults` and `DockerOnlyForServerDatabases` |
| DrizzleOptions.Scenario | packages/adders/drizzle/config/tests.ts:21-24 | one spread literal of the matrix; its properties are `ScenarioKeepsDefaults`, `ScenarioSelectsDriver`, `DockerOnlyForServerDatabases` and `ScenariosDistinct` |
| DrizzleTemplates.ServerScript | packages/adders/drizzle/config/tests.ts:51-66 | the injected server module; its properties are `ServerScriptSplits`, `ServerScriptAnnotatedIffTypescript` and `PlainScriptIsTypedScriptUnannotated` |
| DrizzleTemplates.UsersMarkup | packages/adders/drizzle/config/tests.ts:35-39 | the injected markup; its property is `MarkupCarriesTestId` |
| DrizzleFiles.Name | packages/adders/drizzle/config/tests.ts:28-80 | the four `name` functions; their properties are `ExtensionFollowsLanguage`, `PageFilesInRoutesDirectory`, `PagePathsWithoutKit` and `NamesDistinct` |
| DrizzleFiles.ContentTypeOf | packages/adders/drizzle/config/tests.ts:29-81 | the `contentType` of each entry: svelte, script, text and json, in declaration order |
| DrizzleFiles.KitPresent | packages/adders/drizzle/config/tests.ts:30-74 | the `Boolean(kit)` condition; its property is `AppliesExactlyWithKit` |
| DrizzleFiles.Applies | packages/adders/drizzle/config/tests.ts:30-74 | whether an entry runs, with no condition on `package.json`; its property is `AppliesExactlyWithKit` |
| DrizzleFiles.UpdateScripts | packages/adders/drizzle/config/tests.ts:84 | the manifest edit on an object `scripts`: manifest keys and order kept, other manifest members unchanged, `postinstall` follows `??=`, other scripts unchanged, script key order kept |
| DrizzleTests.SelectorNamesTestId | packages/adders/drizzle/config/tests.ts:94 | the test's only step is `elementExists` on the test-id attribute in brackets |
| DrizzleTests.DrizzleTestConfig | packages/adders/drizzle/config/tests.ts:18-98 | the test configuration: the four file entries, the matrix and the one test; its properties are `OptionValueMatrix` and `ProbesTargetInjectedMarkup` |

## Left out

- `startDocker`, `stopDocker` and the `beforeAll`/`afterAll`/`exit`/`SIGINT` hooks (tests.ts:88-89, 100-111) run shell commands and register process handlers. They are I/O with no logic to prove.
- The `cwd` resolution (tests.ts:16) reads the module's own URL. It is I/O.
- The test's `run` callback awaits `elementExists` in a live browser. Only the step it issues is modelled, as a `TestStep` value.
- `options.ts` is not part of this model. The defaults of its questions are a parameter (`DrizzleQuestions`), so every property is proved for all defaults.
- `common.addFromString` and `addFromRawHtml` parse code and markup. Parsing is not part of this model. Both are modelled as appending the fragment to the AST's body or child list.
- DrizzleFiles.SveltePageContent and DrizzleFiles.ServerLoadContent state the appended fragment, not the parsed statements or nodes, because parsing is left out.
- JSON parsing and serialization, and numbers other than integers, are not modelled. With an array `scripts`, JavaScript's expando property is not serialized, so the model returns the manifest unchanged.
- `defineAdderTests` and the other `define…` helpers of `packages/core/adder/config.ts` return their argument unchanged. The configuration is built directly (`DrizzleTests.DrizzleTestConfig`).
- The transform engine that applies these entries, the test runner and the snapshot files (`community-adder-template/tests/snapshot.js`, the vitest and vite configs) are not part of this model.
- Text.Replace: requires a replacement without `$`, because the `$&`, `$$`, `` $` `` and `$'` substitutions of `String.prototype.replace` are not modelled. The fixture's replacements are `""` and `"value"`.
- Json.SetMember: requires a key that is not an array index such as `"0"`, because JavaScript lists such keys first, in numeric order, and the model does not. The fixture writes only `scripts` and `postinstall`.
- Json.AssignIfNullish: requires a non-index key, for the same reason as `Json.SetMember`.
- Objects are assumed to come from `JSON.parse`, so their member names are unique. On a member list that repeats a name, `Get` reads the first member, whereas `JSON.parse` keeps the last value. The uniqueness lemmas (`Json.SetMemberKeepsUnique`, `DrizzleFiles.PackageJsonContentKeepsUniqueKeys`) show that the edits keep names unique.
