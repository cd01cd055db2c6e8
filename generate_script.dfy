/** `POST /api/generate-script`: turn the two criteria lists into a prompt
    that numbers each list from 1, ask the language model for a screening
    script, and return its text.

    The prose of the prompt is fixed text the model stands in for with
    short constants; what is modelled is where the study name, its defaults
    and the numbered lists go. The chat-completion request is an oracle: a
    function from the user prompt to the content of the first choice (which
    may be null), or an exception. */
module GenerateScript {
  import opened Wrappers
  import opened Text

  const MissingCriteriaError := "Missing inclusion or exclusion criteria"
  const DefaultError := "Failed to generate script"

  /** The three places the study name appears, each with its own fallback. */
  const DefaultHeading := "Clinical Trial"
  const DefaultRole := "clinical trial"
  const DefaultScope := "the specific trial"

  /** Stand-ins for the fixed prose between the inserted values. */
  const Opening := "You are a clinical research operations specialist. Create a structured SYSTEM PROMPT for an AI voice agent that will conduct phone pre-screening for a clinical trial.\n\n"
  const RoleLead := "\n\nCreate a system prompt with these sections:\n\n# Role and Personality\nYou are a clinical trial coordinator conducting a pre-screening phone interview for the "
  const ScopeLead := ". [workflow instructions]\n\nDO NOT:\n- Ask which trial they're interested in (you're already screening for "
  const Closing := ")\n[remaining instructions]\n\nGenerate the complete system prompt now."

  /** The request body; a list is None when missing or null. */
  datatype ScriptRequest = ScriptRequest(
    inclusion: Option<seq<string>>,
    exclusion: Option<seq<string>>,
    studyName: Option<string>)

  datatype Response = Generated(script: string) | Failed(status: nat, error: string)

  /** The model's answer to a prompt: the first choice's content, or an
      exception. */
  type Completion = string -> Attempt<Option<string>>

  // ---------------------------------------------------------------------
  // Numbered lists

  /** Item `item` rendered at index `k`: its number, ". ", the item. */
  function Line(k: nat, item: string): string
  {
    NatToString(k + 1) + ". " + item
  }

  /** `items.map((c, i) => `${i + 1}. ${c}`)` */
  function NumberedLines(items: seq<string>): (lines: seq<string>)
    ensures |lines| == |items|
  {
    seq(|items|, k requires 0 <= k < |items| => Line(k, items[k]))
  }

  /** The lines joined with "\n": empty exactly when the list is. */
  function NumberedList(items: seq<string>): (r: string)
    ensures r == "" <==> items == []
  {
    var lines := NumberedLines(items);
    assert |lines| > 1 ==> Join(lines, "\n") == lines[0] + "\n" + Join(lines[1..], "\n");
    Join(lines, "\n")
  }

  /** Line k carries the number k + 1, in decimal, then ". " and item k. */
  lemma LineNumber(items: seq<string>, k: nat)
    requires k < |items|
    ensures var line := NumberedLines(items)[k]; var d := NatToString(k + 1);
      && StartsWith(line, d + ". ") && line[|d| + 2..] == items[k]
      && DecimalValue(d) == k + 1
  {
    var line := NumberedLines(items)[k];
    var d := NatToString(k + 1);
    assert line == Line(k, items[k]) == (d + ". ") + items[k];
    NatToStringRoundTrip(k + 1);
  }

  /** Appending an item appends one line, numbered one past the last. */
  lemma NumberedListSnoc(items: seq<string>, c: string)
    ensures NumberedList(items + [c]) ==
      (if items == [] then "" else NumberedList(items) + "\n") + Line(|items|, c)
  {
    var lines := NumberedLines(items + [c]);
    var last := Line(|items|, c);
    assert lines == NumberedLines(items) + [last];
    if items != [] {
      JoinSnoc(NumberedLines(items), last, "\n");
    } else {
      assert lines == [last];
    }
  }

  /** Each list is numbered from 1 on its own: the exclusion list does not
      continue the inclusion list's numbering. */
  lemma NumberingRestarts(items: seq<string>)
    requires items != []
    ensures StartsWith(NumberedList(items), "1. " + items[0])
  {
    var lines := NumberedLines(items);
    var first := "1. " + items[0];
    assert NatToString(1) == "1";
    assert lines[0] == Line(0, items[0]) == first;
    if |lines| > 1 {
      assert NumberedList(items) == first + ("\n" + Join(lines[1..], "\n"));
    }
  }

  /** When no item holds a newline, splitting the rendered list on "\n"
      gives back one line per item, in order. */
  lemma NumberedListLines(items: seq<string>)
    requires items != []
    requires forall k :: 0 <= k < |items| ==> '\n' !in items[k]
    ensures Split(NumberedList(items), '\n') == NumberedLines(items)
  {
    var lines := NumberedLines(items);
    forall k | 0 <= k < |lines|
      ensures '\n' !in lines[k]
    {
      var d := NatToString(k + 1);
      assert lines[k] == Line(k, items[k]) == d + ". " + items[k];
      assert '\n' !in d by {
        assert forall j :: 0 <= j < |d| ==> IsDigit(d[j]);
      }
    }
    SplitJoin(lines, '\n');
  }

  // ---------------------------------------------------------------------
  // The prompt

  /** The values put where the study name goes. */
  datatype StudyNames = StudyNames(heading: string, role: string, scope: string)

  /** `studyName || '…'`, three times with three fallbacks. */
  function NamesFor(studyName: Option<string>): (n: StudyNames)
    ensures Truthy(studyName) ==> n == StudyNames(studyName.value, studyName.value, studyName.value)
    ensures !Truthy(studyName) ==> n == StudyNames(DefaultHeading, DefaultRole, DefaultScope)
    ensures n.heading != "" && n.role != "" && n.scope != ""
  {
    if Truthy(studyName) then StudyNames(studyName.value, studyName.value, studyName.value)
    else StudyNames(DefaultHeading, DefaultRole, DefaultScope)
  }

  /** The three fallbacks differ from one another, so a missing name is
      told apart from any given name that is used in all three places. */
  lemma FallbacksDiffer(studyName: Option<string>)
    ensures var n := NamesFor(studyName);
      (n.heading == n.role == n.scope) <==> Truthy(studyName)
  {
    assert DefaultHeading[0] != DefaultRole[0];
  }

  const StudyLabel := "STUDY: "
  const InclusionTitle := "\n\nINCLUSION CRITERIA:\n"
  const ExclusionTitle := "\n\nEXCLUSION CRITERIA:\n"

  /** The study line the prompt opens with. */
  function Heading(names: StudyNames): string
  {
    Opening + StudyLabel + names.heading
  }

  /** Both numbered lists, each under its title. */
  function CriteriaBlock(inclusion: seq<string>, exclusion: seq<string>): string
  {
    InclusionTitle + NumberedList(inclusion) + ExclusionTitle + NumberedList(exclusion)
  }

  /** The instructions, naming the study twice more. */
  function Instructions(names: StudyNames): string
  {
    RoleLead + names.role + ScopeLead + names.scope + Closing
  }

  /** The user prompt sent to the model. */
  function ScriptPrompt(inclusion: seq<string>, exclusion: seq<string>, names: StudyNames): string
  {
    Heading(names) + CriteriaBlock(inclusion, exclusion) + Instructions(names)
  }

  /** The prompt opens with the study heading, carries the inclusion list
      and then the exclusion list, each numbered and under its own title,
      and ends with the instructions naming the study as role and scope. */
  lemma PromptSections(inclusion: seq<string>, exclusion: seq<string>, names: StudyNames)
    ensures var p := ScriptPrompt(inclusion, exclusion, names);
      && StartsWith(p, Opening + StudyLabel + names.heading)
      && Contains(p, InclusionTitle + NumberedList(inclusion) + ExclusionTitle + NumberedList(exclusion))
      && EndsWith(p, RoleLead + names.role + ScopeLead + names.scope + Closing)
  {
    var h := Heading(names);
    var c := CriteriaBlock(inclusion, exclusion);
    var t := Instructions(names);
    assert (h + c + t)[..|h|] == h;
    assert (h + c + t)[|h + c|..] == t;
    ContainsInfix(h, c, t);
  }

  /** `x + q + y` contains `q`. */
  lemma ContainsInfix(x: string, q: string, y: string)
    ensures Contains(x + q + y, q)
  {
    var s := x + q + y;
    assert s[|x|..][..|q|] == q;
    ContainsIffOccurs(s, q);
  }

  // ---------------------------------------------------------------------
  // The handler

  /** The handler: both lists are required (an empty list is present);
      the model's reply, or "" when it has no content, is the script; an
      exception is a 500. */
  function Generate(req: ScriptRequest, complete: Completion): (resp: Response)
    ensures req.inclusion.None? || req.exclusion.None? ==> resp == Failed(400, MissingCriteriaError)
    ensures resp.Generated? ==>
              && req.inclusion.Some? && req.exclusion.Some?
              && var answer := complete(ScriptPrompt(req.inclusion.value, req.exclusion.value,
                                                     NamesFor(req.studyName)));
                 answer.Done? && resp.script == answer.value.GetOr("")
    ensures req.inclusion.Some? && req.exclusion.Some? ==>
              var answer := complete(ScriptPrompt(req.inclusion.value, req.exclusion.value,
                                                  NamesFor(req.studyName)));
              && (answer.Threw? ==> resp == Failed(500, OrDefault(answer.message, DefaultError)))
              && (answer.Done? ==> resp == Generated(answer.value.GetOr("")))
  {
    if req.inclusion.None? || req.exclusion.None? then Failed(400, MissingCriteriaError)
    else
      var prompt := ScriptPrompt(req.inclusion.value, req.exclusion.value, NamesFor(req.studyName));
      match complete(prompt)
      case Threw(m) => Failed(500, OrDefault(m, DefaultError))
      case Done(content) => Generated(content.GetOr(""))
  }

  /** Validation comes before the model is asked: a request missing a list
      gets the same 400 whatever the model would answer, and a complete
      request never gets that 400. */
  lemma ValidationFirst(req: ScriptRequest, c1: Completion, c2: Completion)
    ensures req.inclusion.None? || req.exclusion.None? ==> Generate(req, c1) == Generate(req, c2)
    ensures req.inclusion.Some? && req.exclusion.Some? ==>
              Generate(req, c1) != Failed(400, MissingCriteriaError)
  {
  }
}
