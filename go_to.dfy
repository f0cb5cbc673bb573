/**
 * The "go to" command: a descriptor built per language from the translated
 * alias and description, whose `exec` turns the spoken remainder into a URL
 * string and asks the background context to navigate there.
 */
module GoToCommand {
  import opened Wrappers
  import opened JsString
  import opened Messaging
  import opened Commands

  /** The descriptor's id, the same in every language. */
  const Id: string := "59A7532E-805F-8882-A6F1-6BF822E96612"

  /**
   * The descriptor for one language; `alias` and `description` are the
   * translations of "command_go_to_label" and "command_go_to_description".
   */
  function Descriptor(alias: string, description: string): (c: Command)
    ensures c.id == Id && c.matching == Strategy("startsWith")
    ensures c.name == alias && c.description == description
    ensures c.action == GoToAction(alias)
  {
    Command(Id, alias, description, Strategy("startsWith"), GoToAction(alias))
  }

  /**
   * The URL `exec` derives from `text`: the first occurrence of the alias
   * cut out, then lower-cased, then trimmed.
   */
  function Content(alias: string, text: string): (url: string)
    ensures url != [] ==> !IsWhiteSpace(url[0]) && !IsWhiteSpace(url[|url| - 1])
    ensures forall i :: 0 <= i < |url| ==> !IsAsciiUpper(url[i])
    ensures Absent(text, alias) ==> url == Trim(ToLower(text))
  {
    Trim(ToLower(RemoveFirst(text, alias)))
  }

  /**
   * `exec(text, options, callback)`: one "/go_to" message to the background
   * context carrying the URL, then the callback with no message.
   */
  function Exec(alias: string, text: string): (out: ExecOutcome)
    ensures out.sends == [Envelope(Background, "/go_to", Url(Content(alias, text)))]
    ensures out.callback == Called(None) && !out.callback.HasMessage()
  {
    ExecOutcome([Envelope(Background, "/go_to", Url(Content(alias, text)))], Called(None))
  }

  /** Where the alias first occurs at `i`, the URL is built from what surrounds it. */
  lemma ContentAt(alias: string, text: string, i: nat)
    requires OccursAt(text, alias, i)
    requires forall j: nat :: j < i ==> !OccursAt(text, alias, j)
    ensures Content(alias, text) == Trim(ToLower(text[..i] + text[i + |alias|..]))
  {
    RemoveFirstAt(text, alias, i);
  }

  /** Text that starts with the alias yields its lower-cased, trimmed remainder. */
  lemma ContentAfterAlias(alias: string, rest: string)
    ensures Content(alias, alias + rest) == Trim(ToLower(rest))
  {
    var text := alias + rest;
    assert text[..|alias|] == alias && text[|alias|..] == rest;
    RemoveFirstPrefix(text, alias);
  }

  /** Text none of whose characters opens the alias cannot contain it. */
  lemma AbsentByFirstChar(text: string, alias: string)
    requires alias != []
    requires forall i :: 0 <= i < |text| ==> text[i] != alias[0]
    ensures Absent(text, alias)
  {
    forall j: nat | j <= |text|
      ensures !OccursAt(text, alias, j)
    {
      if j + |alias| <= |text| {
        assert text[j..j + |alias|][0] == text[j];
      }
    }
  }

  /**
   * The alias is cut out before lower-casing, so an alias that differs from
   * the spoken words only in case stays in the URL, lower-cased.
   */
  lemma CaseDifferentAliasStays()
    ensures Content("Go to", "go to Example.com") == "go to example.com"
  {
    var text := "go to Example.com";
    AbsentByFirstChar(text, "Go to");
    var lower := ToLower(text);
    assert lower == "go to example.com";
    TrimNoEdges(lower);
  }

  /**
   * The scenario "go to example.com" with the alias "go to" navigates to
   * "example.com". The strings come in as parameters pinned by `requires`, so
   * the solver unfolds the string functions only as far as each helper needs.
   */
  lemma GoToExample(alias: string, url: string)
    requires alias == "go to" && url == "example.com"
    ensures Exec(alias, alias + " " + url).sends == [Envelope(Background, "/go_to", Url(url))]
  {
    ExampleContent(alias, url);
  }

  /** The URL of the scenario; the helpers below take one step each. */
  lemma ExampleContent(alias: string, url: string)
    requires alias == "go to" && url == "example.com"
    ensures Content(alias, alias + " " + url) == url
  {
    assert alias + " " + url == alias + (" " + url);
    ContentAfterAlias(alias, " " + url);
    ExampleIsLowerCase(url);
    ExampleTrims(url);
  }

  /** " example.com" has no capital letter. */
  lemma ExampleIsLowerCase(url: string)
    requires url == "example.com"
    ensures ToLower(" " + url) == " " + url
  {
    ToLowerOfLower(" " + url);
  }

  /** Trimming " example.com" drops its one leading space. */
  lemma ExampleTrims(url: string)
    requires url == "example.com"
    ensures Trim(" " + url) == url
  {
    TrimAfterWhiteSpace(' ', url);
  }
}
