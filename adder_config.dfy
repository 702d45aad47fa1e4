/**
 * Vocabulary shared by add-on test definitions: the workspace a transform
 * reads, the content kinds of its target files, and the shape of a test
 * configuration. These are declarations only.
 */
module AdderConfig {
  import opened Wrappers

  /** What a file transform may be told about a SvelteKit project. */
  datatype KitInfo = KitInfo(routesDirectory: string)

  /**
   * The part of the workspace the drizzle transforms read: whether the
   * project uses SvelteKit (and where its routes live) and whether it is
   * written in TypeScript.
   */
  datatype Workspace = Workspace(kit: Option<KitInfo>, typescript: bool)

  /** How a transform's target file is parsed before its content function runs. */
  datatype ContentType = SvelteContent | ScriptContent | TextContent | JsonContent

  /** One step of a test against the running project. */
  datatype TestStep =
    | ExpectProperty(selector: string, property: string, expectedValue: string)
    | ElementExists(selector: string)
    | Click(selector: string, resultingPath: Option<string>)
    | ExpectUrlPath(path: string)

  /** A named test: the sequence of steps its `run` function performs. */
  datatype TestDefinition = TestDefinition(name: string, steps: seq<TestStep>)

  /** A test configuration: file overrides, the scenario matrix, and the tests. */
  datatype AdderTestConfig<File, Values> =
    AdderTestConfig(files: seq<File>, optionValues: seq<Values>, tests: seq<TestDefinition>)
}
