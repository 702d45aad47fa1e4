/**
 * The drizzle add-on's test configuration: the file entries, the scenario
 * matrix and the one test, which looks for the rows the page renders.
 */
module DrizzleTests {
  import opened Text
  import opened AdderConfig
  import opened DrizzleOptions
  import opened DrizzleTemplates
  import opened DrizzleFiles

  /** The test `queries database`: the page shows at least one user row. */
  const QueriesDatabase := TestDefinition("queries database", [ElementExists("[data-test-id]")])

  /**
   * `defineAdderTests({ optionValues, files, tests })`: the configuration
   * without the option definition and the docker hooks.
   */
  function DrizzleTestConfig(q: DrizzleQuestions): AdderTestConfig<FileEntry, OptionValues>
  {
    AdderTestConfig(Files, OptionValueMatrix(q), [QueriesDatabase])
  }

  /**
   * Every step of every test asks for an element carrying an attribute, and
   * that attribute is the one the svelte entry's markup puts on each user row.
   */
  lemma ProbesTargetInjectedMarkup(q: DrizzleQuestions)
    ensures var c := DrizzleTestConfig(q);
      forall t, s :: t in c.tests && s in t.steps ==>
        && s.ElementExists? && 2 <= |s.selector|
        && s.selector == "[" + s.selector[1..|s.selector| - 1] + "]"
        && Contains(UsersMarkup, " " + s.selector[1..|s.selector| - 1] + "=")
  {
    var sel := "[" + TestIdAttribute + "]";
    SelectorNamesTestId();
    assert sel[1..|sel| - 1] == TestIdAttribute;
    MarkupCarriesTestId();
  }

  /** The selector literal of the test is the test-id attribute in brackets. */
  lemma SelectorNamesTestId()
    ensures QueriesDatabase.steps == [ElementExists("[" + TestIdAttribute + "]")]
  {
    assert "[data-test-id]" == "[" + TestIdAttribute + "]";
  }
}
