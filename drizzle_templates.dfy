/**
 * The source texts the drizzle test fixture splices into the project: the
 * markup added to the routes page and the server module with its `load`
 * function, whose `insertUser` parameter is annotated only in TypeScript.
 *
 * Long lines are written as several literals because the verifier reasons
 * about one short literal at a time; the texts are exactly those of the
 * fixture's template literals, indentation included.
 */
module DrizzleTemplates {
  import opened Text

  const Indent20 := "                    "
  const Indent24 := "                        "

  /** The script statement added to the page: it receives the `load` result. */
  const ExportData := "export let data;"

  /** The attribute every rendered user row carries. */
  const TestIdAttribute := "data-test-id"

  const SpanTag := "<span"
  const SpanRest := "\"user-id-{user.id}\">{user.id} {user.name}</span>\n"
  const EachOpen := "{#each data.users as user}\n"
  const EachClose := "{/each}\n"

  /** The test-id attribute as it is written on the row's `span`, up to its value. */
  const TestIdText := " " + TestIdAttribute + "="

  /** The markup before and after the `span`'s test-id attribute. */
  const MarkupHead := "\n" + Indent20 + EachOpen + Indent24
  const MarkupTail := SpanRest + Indent20 + EachClose + Indent20

  /** The markup appended to the page: one `span` per user returned by `load`. */
  const UsersMarkup := MarkupHead + SpanTag + TestIdText + MarkupTail

  /** The `insertUser` parameter in TypeScript and in JavaScript. */
  const TypedParameter := "value: typeof user.$inferInsert"
  const PlainParameter := "value"

  const ImportDb := "import { db } from '$lib/server/db';\n"
  const ImportUser1 := "import { user } from "
  const ImportUser2 := "'$lib/server/db/schema.js';\n"
  const LoadOpen := "export const load = async () => {\n"
  const Insert1 := "await insertUser({ name: 'Foobar', "
  const Insert2 := "id: 0, age: 20 })"
  const Insert3 := ".catch((err) => console.error(err));\n"
  const Select1 := "const users = await db.select()"
  const Select2 := ".from(user);\n"
  const Return := "return { users };\n"
  const LoadClose := "};\n"
  const InsertUserOpen := "function insertUser("
  const InsertUserRest := ") {\n"
  const InsertBody := "return db.insert(user).values(value);\n"
  const InsertUserClose := "}\n"

  /** The server module up to the `insertUser` parameter. */
  const ScriptHead :=
    "\n"
    + Indent20 + ImportDb
    + Indent20 + ImportUser1 + ImportUser2
    + "\n"
    + Indent20 + LoadOpen
    + Indent24 + Insert1 + Insert2 + Insert3
    + "\n"
    + Indent24 + Select1 + Select2
    + "\n"
    + Indent24 + Return
    + Indent20 + LoadClose
    + "\n"
    + Indent20 + InsertUserOpen

  /** The server module after the `insertUser` parameter. */
  const ScriptTail :=
    InsertUserRest
    + Indent24 + InsertBody
    + Indent20 + InsertUserClose
    + Indent20

  /** The `insertUser` parameter: annotated with the row type only in TypeScript. */
  function InsertUserParameter(typescript: bool): (p: string)
    ensures p == TypedParameter <==> typescript
  {
    if typescript then TypedParameter else PlainParameter
  }

  /** The server module the fixture adds to `+page.server.(ts|js)`. */
  function ServerScript(typescript: bool): string
  {
    ScriptHead + InsertUserParameter(typescript) + ScriptTail
  }

  // The annotation names `$inferInsert`; nothing else in the module has a
  // capital I. The lemmas below check that, one literal at a time.

  lemma IndentsLackCapitalI() ensures 'I' !in Indent20 && 'I' !in Indent24 {}
  lemma ImportsLackCapitalI() ensures 'I' !in ImportDb && 'I' !in ImportUser1 && 'I' !in ImportUser2 {}
  lemma LoadOpenLacksCapitalI() ensures 'I' !in LoadOpen {}
  lemma InsertCallLacksCapitalI() ensures 'I' !in Insert1 && 'I' !in Insert2 && 'I' !in Insert3 {}
  lemma SelectLacksCapitalI() ensures 'I' !in Select1 && 'I' !in Select2 {}
  lemma LoadEndLacksCapitalI() ensures 'I' !in Return && 'I' !in LoadClose && 'I' !in InsertUserOpen {}
  lemma TailLinesLackCapitalI() ensures 'I' !in InsertUserRest && 'I' !in InsertBody && 'I' !in InsertUserClose {}

  /** Neither the head nor the tail of the server module has a capital I. */
  lemma FrameLacksCapitalI()
    ensures 'I' !in ScriptHead && 'I' !in ScriptTail
  {
    IndentsLackCapitalI();
    ImportsLackCapitalI();
    LoadOpenLacksCapitalI();
    InsertCallLacksCapitalI();
    SelectLacksCapitalI();
    LoadEndLacksCapitalI();
    TailLinesLackCapitalI();
  }

  /** The `I` of `$inferInsert`, and no capital I before it. */
  lemma CapitalIOfAnnotation()
    ensures TypedParameter[25] == 'I' && 'I' !in TypedParameter[..25] && 'I' !in PlainParameter
  {
  }

  /** The server module's text with the parameter cut out is the same in both modes. */
  lemma ServerScriptSplits(typescript: bool)
    ensures var s, k := ServerScript(typescript), |ScriptHead|;
      && k + |InsertUserParameter(typescript)| <= |s|
      && s[..k] == ScriptHead
      && s[k..k + |InsertUserParameter(typescript)|] == InsertUserParameter(typescript)
      && s[k + |InsertUserParameter(typescript)|..] == ScriptTail
  {
    var p := InsertUserParameter(typescript);
    var s := ServerScript(typescript);
    assert s == ScriptHead + p + ScriptTail;
  }

  /**
   * The generated server module carries the `typeof user.$inferInsert`
   * annotation exactly when the project is written in TypeScript.
   */
  lemma ServerScriptAnnotatedIffTypescript(typescript: bool)
    ensures Contains(ServerScript(typescript), TypedParameter) <==> typescript
  {
    var s, k := ServerScript(typescript), |ScriptHead|;
    ServerScriptSplits(typescript);
    if typescript {
      assert OccursAt(s, TypedParameter, k);
    } else {
      FrameLacksCapitalI();
      CapitalIOfAnnotation();
      assert s == ScriptHead + PlainParameter + ScriptTail;
      assert 'I' !in s;
    }
  }

  /**
   * The JavaScript module is the TypeScript module with its first (and only)
   * annotated parameter replaced by the plain one: the rest of the text is
   * identical in both modes.
   */
  lemma PlainScriptIsTypedScriptUnannotated()
    ensures ServerScript(false) == Replace(ServerScript(true), TypedParameter, PlainParameter)
  {
    var t, k := ServerScript(true), |ScriptHead|;
    ServerScriptSplits(true);
    ServerScriptSplits(false);
    FrameLacksCapitalI();
    CapitalIOfAnnotation();
    assert OccursAt(t, TypedParameter, k);
    assert forall j: nat :: j < k ==> !OccursAt(t, TypedParameter, j);
  }

  /** The markup gives the rendered user row's `span` a `data-test-id` attribute. */
  lemma MarkupCarriesTestId()
    ensures OccursAt(UsersMarkup, TestIdText, |MarkupHead + SpanTag|)
    ensures Contains(UsersMarkup, " " + TestIdAttribute + "=")
  {
    OccursBetween(MarkupHead + SpanTag, TestIdText, MarkupTail);
  }
}
