/** The archive's component kinds and how the `--components` option selects
    among them (deploy.py:10, 70-71, 89, 96, 104). */
module Components {

  datatype Component = Databases | Files | Code

  const AllComponents: set<Component> := {Databases, Files, Code}

  lemma AllComponentsComplete()
    ensures forall c :: c in AllComponents
  {
    forall c ensures c in AllComponents {
      match c
      case Databases =>
      case Files =>
      case Code =>
    }
  }

  /** The module-level list `components` of deploy.py, in its order. */
  const Names: seq<string> := ["databases", "files", "code"]

  /** The position of a component in `Names`. */
  function Index(c: Component): (i: nat)
    ensures i < |Names|
  {
    match c
    case Databases => 0
    case Files => 1
    case Code => 2
  }

  /** The component's name, which is also its configuration section and the
      name of its subdirectory in an archive. */
  function Name(c: Component): (n: string)
    ensures n == Names[Index(c)]
    ensures n != "" && n[0] != '/'
  {
    match c
    case Databases => "databases"
    case Files => "files"
    case Code => "code"
  }

  lemma NameInjective(c1: Component, c2: Component)
    ensures Name(c1) == Name(c2) <==> c1 == c2
  {
  }

  /** What `options.components` holds when the membership tests run: the
      text given on the command line, or the list `Names` that replaced the
      literal "all". */
  datatype ComponentsValue = Text(text: string) | List(items: seq<string>)

  /** deploy.py:70-71: only the exact text "all" is replaced by the list. */
  function Expand(raw: string): ComponentsValue {
    if raw == "all" then List(Names) else Text(raw)
  }

  /** Python's `needle in hay` on two strings: a contiguous occurrence. */
  function Occurs(needle: string, hay: string): bool
    decreases |hay|
  {
    if |needle| > |hay| then false
    else if hay[..|needle|] == needle then true
    else Occurs(needle, hay[1..])
  }

  /** `needle` occurs in `hay` starting at position `i`. */
  predicate OccursAt(needle: string, hay: string, i: int) {
    0 <= i && i + |needle| <= |hay| && hay[i..i + |needle|] == needle
  }

  /** The scan `Occurs` finds an occurrence exactly when one exists. */
  lemma {:induction false} OccursIff(needle: string, hay: string)
    ensures Occurs(needle, hay) <==> exists i :: OccursAt(needle, hay, i)
    decreases |hay|
  {
    if |needle| > |hay| {
    } else if hay[..|needle|] == needle {
      assert OccursAt(needle, hay, 0);
    } else {
      OccursIff(needle, hay[1..]);
      forall i | OccursAt(needle, hay, i)
        ensures OccursAt(needle, hay[1..], i - 1)
      {
        assert hay[1..][i - 1..i - 1 + |needle|] == hay[i..i + |needle|];
      }
      forall j | OccursAt(needle, hay[1..], j)
        ensures OccursAt(needle, hay, j + 1)
      {
        assert hay[1..][j..j + |needle|] == hay[j + 1..j + 1 + |needle|];
      }
    }
  }

  /** A needle with a character that the haystack lacks does not occur. */
  lemma MissingCharacter(needle: string, hay: string, j: int)
    requires 0 <= j < |needle| && needle[j] !in hay
    ensures !Occurs(needle, hay)
  {
    OccursIff(needle, hay);
    forall i | 0 <= i && i + |needle| <= |hay|
      ensures !OccursAt(needle, hay, i)
    {
      assert hay[i..i + |needle|][j] == hay[i + j];
    }
  }

  /** Python's `name in options.components`, for either type the option
      can hold: a substring test on text, a membership test on the list. */
  predicate Contains(v: ComponentsValue, name: string) {
    match v
    case Text(s) => Occurs(name, s)
    case List(items) => name in items
  }

  /** Whether component `c` takes part in `create` for the option text `raw`. */
  predicate Selected(raw: string, c: Component) {
    Contains(Expand(raw), Name(c))
  }

  /** The selection rule: "all" selects every component; any other text
      selects a component exactly when its name occurs in the text, anywhere
      and in any surrounding, so that the text is never split at commas. */
  lemma SelectedIff(raw: string, c: Component)
    ensures Selected(raw, c) <==> raw == "all" || exists i :: OccursAt(Name(c), raw, i)
  {
    OccursIff(Name(c), raw);
  }

  /** The set of components the option text selects. */
  function Selection(raw: string): (s: set<Component>)
    ensures s <= AllComponents
    ensures forall c :: c in s <==> Selected(raw, c)
  {
    set c | c in AllComponents && Selected(raw, c)
  }

  lemma AllSelectsEverything()
    ensures Selection("all") == AllComponents
  {
  }

  // The component-by-component facts behind the three examples below.

  lemma ListedFiles()
    ensures Selected("files,code", Files)
  {
    assert OccursAt("files", "files,code", 0);
    SelectedIff("files,code", Files);
  }

  lemma ListedCode()
    ensures Selected("files,code", Code)
  {
    assert OccursAt("code", "files,code", 6);
    SelectedIff("files,code", Code);
  }

  lemma ListedNoDatabases()
    ensures !Selected("files,code", Databases)
  {
    MissingCharacter("databases", "files,code", 1);
  }

  /** A comma-separated list of known names selects exactly those names. */
  lemma ListedSelection()
    ensures Selection("files,code") == {Files, Code}
  {
    ListedFiles();
    ListedCode();
    ListedNoDatabases();
    forall c ensures c in Selection("files,code") <==> c in {Files, Code} {
    }
  }

  lemma UnknownNoFiles()
    ensures !Selected("database", Files)
  {
    MissingCharacter("files", "database", 0);
  }

  lemma UnknownNoCode()
    ensures !Selected("database", Code)
  {
    MissingCharacter("code", "database", 0);
  }

  /** Text that names no component selects nothing: the singular
      "database" is not a component name. */
  lemma UnknownNameSelectsNothing()
    ensures Selection("database") == {}
  {
    UnknownNoFiles();
    UnknownNoCode();
    assert !Selected("database", Databases);
    forall c ensures c !in Selection("database") {
    }
  }

  lemma EmbeddedNoDatabases()
    ensures !Selected("sourcecode", Databases)
  {
    MissingCharacter("databases", "sourcecode", 1);
  }

  lemma EmbeddedNoFiles()
    ensures !Selected("sourcecode", Files)
  {
    MissingCharacter("files", "sourcecode", 0);
  }

  lemma EmbeddedCode()
    ensures Selected("sourcecode", Code)
  {
    assert OccursAt("code", "sourcecode", 6);
    SelectedIff("sourcecode", Code);
  }

  /** A name embedded in a longer word still selects its component. */
  lemma EmbeddedNameSelects()
    ensures Selection("sourcecode") == {Code}
  {
    EmbeddedNoDatabases();
    EmbeddedNoFiles();
    EmbeddedCode();
    forall c ensures c in Selection("sourcecode") <==> c == Code {
    }
  }
}
