/** Document generation from a repository's AI summary
    (apps/api/app/services/document_generation.py): the title, description
    and default prompt derived from a document type, the failure semantics
    of generating one document, and the mapping of several generations back
    to their types. The model call and the database are inputs. */
module Documents {
  import opened Wrappers
  import opened PyStrings

  const DefaultDocumentTypes: seq<string> := ["project_requirements_document", "app_flow_document", "tech_stack_document"]

  /** Words written in upper case when a type name is formatted. */
  const Acronyms: set<string> := {"api", "url", "id", "http", "https", "ui", "ux", "html", "css", "js", "json", "xml"}

  // ---------------------------------------------------------------------
  // Shared text lemmas
  // ---------------------------------------------------------------------

  /** `s.replace(a, b)` for single characters. */
  function ReplaceChar(s: string, a: char, b: char): (r: string)
    ensures |r| == |s|
  {
    seq(|s|, i requires 0 <= i < |s| => if s[i] == a then b else s[i])
  }

  lemma ReplaceConcat(x: string, y: string, a: char, b: char)
    ensures ReplaceChar(x + y, a, b) == ReplaceChar(x, a, b) + ReplaceChar(y, a, b)
  {
  }

  /** Joining with `b` is joining with `a` and replacing `a` by `b`, when no part holds `a`. */
  lemma {:induction false} JoinReplace(parts: seq<string>, a: char, b: char)
    requires forall k :: 0 <= k < |parts| ==> a !in parts[k]
    ensures Join(parts, [b]) == ReplaceChar(Join(parts, [a]), a, b)
  {
    if |parts| == 1 {
      assert ReplaceChar(parts[0], a, b) == parts[0];
    } else if |parts| > 1 {
      JoinReplace(parts[1..], a, b);
      ReplaceConcat(parts[0] + [a], Join(parts[1..], [a]), a, b);
      ReplaceConcat(parts[0], [a], a, b);
      assert ReplaceChar(parts[0], a, b) == parts[0];
    }
  }

  /** The words of a type joined by spaces are the type with each "_" made a space. */
  lemma WordsJoined(t: string)
    ensures Join(Words(t), " ") == ReplaceChar(t, '_', ' ')
  {
    JoinSplit(t, '_');
    JoinReplace(Words(t), '_', ' ');
  }

  /** A join holds `c` only where a part or the separator does. */
  lemma {:induction false} JoinAvoids(parts: seq<string>, sep: string, c: char)
    requires c !in sep && forall k :: 0 <= k < |parts| ==> c !in parts[k]
    ensures c !in Join(parts, sep)
  {
    if |parts| > 1 {
      JoinAvoids(parts[1..], sep, c);
    }
  }

  /** Joins of parts of equal lengths have equal lengths. */
  lemma {:induction false} JoinLength(parts: seq<string>, others: seq<string>, sep: string)
    requires |parts| == |others| && forall k :: 0 <= k < |parts| ==> |parts[k]| == |others[k]|
    ensures |Join(parts, sep)| == |Join(others, sep)|
  {
    if |parts| > 1 {
      JoinLength(parts[1..], others[1..], sep);
    }
  }

  /** Lower-casing forgets any re-casing of the words. */
  lemma LowerOfMapped(words: seq<string>, cased: seq<string>)
    requires |cased| == |words| && forall k :: 0 <= k < |words| ==> Lower(cased[k]) == Lower(words[k])
    ensures Lower(Join(cased, " ")) == Lower(Join(words, " "))
  {
    LowerJoin(cased, " ");
    LowerJoin(words, " ");
    assert seq(|cased|, i requires 0 <= i < |cased| => Lower(cased[i]))
        == seq(|words|, i requires 0 <= i < |words| => Lower(words[i]));
  }

  // ---------------------------------------------------------------------
  // _generate_document_title
  // ---------------------------------------------------------------------

  /** `document_type.split("_")`. */
  function Words(t: string): seq<string>
  {
    Split(t, '_')
  }

  function Capitalized(words: seq<string>): (r: seq<string>)
    ensures |r| == |words|
  {
    seq(|words|, i requires 0 <= i < |words| => Capitalize(words[i]))
  }

  /** `_generate_document_title`: the capitalized words joined by spaces. */
  function Title(t: string): (r: string)
    ensures '_' !in r
    ensures |r| == |t|
  {
    var words := Words(t);
    var caps := Capitalized(words);
    CapitalizedAvoids(words, '_');
    JoinAvoids(caps, " ", '_');
    JoinLength(caps, words, " ");
    WordsJoined(t);
    Join(caps, " ")
  }

  /** Capitalizing words that hold no `c` (a character case mapping leaves
      alone) adds none. */
  lemma CapitalizedAvoids(words: seq<string>, c: char)
    requires forall k :: 0 <= k < |words| ==> c !in words[k]
    requires UpperChar(c) == c && LowerChar(c) == c
    ensures forall k :: 0 <= k < |words| ==> c !in Capitalized(words)[k]
  {
    forall k | 0 <= k < |words| ensures c !in Capitalized(words)[k] {
      CapitalizeAvoids(words[k], c);
    }
  }

  lemma CapitalizeAvoids(w: string, c: char)
    requires c !in w && UpperChar(c) == c && LowerChar(c) == c
    ensures c !in Capitalize(w)
  {
    if w != [] {
      forall i | 0 <= i < |w| ensures Capitalize(w)[i] != c {
        if i > 0 {
          assert Capitalize(w)[i] == Lower(w[1..])[i - 1];
        }
      }
    }
  }

  /** The title has no "_", is as long as the type, and reads as the type
      with "_" made spaces, up to letter case. */
  lemma TitleShape(t: string)
    ensures '_' !in Title(t)
    ensures |Title(t)| == |t|
    ensures Lower(Title(t)) == Lower(ReplaceChar(t, '_', ' '))
  {
    var words := Words(t);
    var caps := Capitalized(words);
    WordsJoined(t);
    forall k | 0 <= k < |words| ensures Lower(caps[k]) == Lower(words[k]) {
      LowerOfCapitalize(words[k]);
    }
    LowerOfMapped(words, caps);
  }

  // ---------------------------------------------------------------------
  // Formatted type names (_generate_document_description, _get_default_prompt_for_type)
  // ---------------------------------------------------------------------

  /** One word: an acronym in upper case, any other word capitalized. */
  function FormatWord(w: string): (r: string)
    ensures Lower(r) == Lower(w)
  {
    if Lower(w) in Acronyms then (LowerOfUpper(w); Upper(w))
    else (LowerOfCapitalize(w); Capitalize(w))
  }

  function Formatted(words: seq<string>): (r: seq<string>)
    ensures |r| == |words|
  {
    seq(|words|, i requires 0 <= i < |words| => FormatWord(words[i]))
  }

  /** The loop that fills `formatted_words`. */
  method FormatWords(words: seq<string>) returns (formatted: seq<string>)
    ensures formatted == Formatted(words)
  {
    formatted := [];
    var i := 0;
    while i < |words|
      invariant 0 <= i <= |words| && formatted == Formatted(words[..i])
    {
      formatted := formatted + [FormatWord(words[i])];
      i := i + 1;
    }
    assert words[..i] == words;
  }

  /** `document_name`: the formatted words joined by spaces. */
  function DocumentName(t: string): string
  {
    Join(Formatted(Words(t)), " ")
  }

  /** Lowered, the document name is the type with "_" made spaces, in lower case. */
  lemma LowerDocumentName(t: string)
    ensures Lower(DocumentName(t)) == Lower(ReplaceChar(t, '_', ' '))
  {
    WordsJoined(t);
    LowerOfMapped(Words(t), Formatted(Words(t)));
  }

  // ---------------------------------------------------------------------
  // _generate_document_description
  // ---------------------------------------------------------------------

  const DefaultDescriptions: map<string, string> := map[
    "project_requirements_document" := "Comprehensive project requirements document generated from codebase analysis",
    "app_flow_document" := "Detailed application flow and architecture document generated from codebase analysis",
    "tech_stack_document" := "Complete technology stack documentation generated from codebase analysis"]

  function DescriptionOf(t: string): string
  {
    if t in DefaultDescriptions then DefaultDescriptions[t]
    else "AI-generated " + Lower(DocumentName(t)) + " document"
  }

  /** `_generate_document_description(document_type)`. */
  method GenerateDescription(t: string) returns (d: string)
    ensures d == DescriptionOf(t)
  {
    if t in DefaultDescriptions {
      return DefaultDescriptions[t];
    }
    var formatted := FormatWords(Words(t));
    d := "AI-generated " + Lower(Join(formatted, " ")) + " document";
  }

  /** Any other type is described by its lower-cased words: the acronym
      upper-casing does not survive. */
  lemma DescriptionOfOtherType(t: string)
    requires t !in DefaultDescriptions
    ensures DescriptionOf(t) == "AI-generated " + Lower(ReplaceChar(t, '_', ' ')) + " document"
  {
    LowerDocumentName(t);
  }

  // ---------------------------------------------------------------------
  // _get_default_prompt_for_type
  // ---------------------------------------------------------------------

  const DefaultPrompts: map<string, string> := map[
    "project_requirements_document" := "You are a technical documentation specialist. \n            Create a comprehensive project requirements document based on the repository content that includes:\n            1. Project Overview and Objectives\n            2. Functional Requirements\n            3. Non-functional Requirements\n            4. Technical Requirements\n            5. Dependencies and Prerequisites\n            6. Assumptions and Constraints\n            7. Success Criteria\n            \n            Make the document clear, structured, and actionable for project managers and developers.",
    "app_flow_document" := "You are a software architect and technical documentation specialist. \n            Analyze the repository and create a detailed application flow document that includes:\n            1. High-level Architecture Overview\n            2. Component Interaction Diagram (text-based)\n            3. Data Flow Description\n            4. User Journey/Workflow\n            5. API Endpoints and Interactions\n            6. Database Schema Overview\n            7. External Service Integrations\n            8. Error Handling and Fallbacks\n            \n            Focus on how data and control flow through the application. Be specific and technical.",
    "tech_stack_document" := "You are a technical lead and documentation specialist. \n            Create a comprehensive technology stack document based on the repository that includes:\n            1. Programming Languages and Versions\n            2. Frameworks and Libraries (with versions)\n            3. Database Technologies\n            4. Infrastructure and Deployment Tools\n            5. Development and Build Tools\n            6. Testing Frameworks and Tools\n            7. Monitoring and Observability Tools\n            8. Third-party Services and APIs\n            9. Security Tools and Practices\n            10. DevOps and CI/CD Tools\n            \n            Include version information where available and explain the purpose of each technology."]

  const GenericPromptHead := "You are a technical documentation specialist. \n        Create a comprehensive "
  const GenericPromptTail := " based on the repository content.\n        Make the document clear, structured, and actionable for developers and stakeholders."

  function DefaultPromptOf(t: string): string
  {
    if t in DefaultPrompts then DefaultPrompts[t]
    else GenericPromptHead + Lower(DocumentName(t)) + GenericPromptTail
  }

  /** `_get_default_prompt_for_type(document_type)`. */
  method DefaultPrompt(t: string) returns (p: string)
    ensures p == DefaultPromptOf(t)
  {
    if t in DefaultPrompts {
      return DefaultPrompts[t];
    }
    var formatted := FormatWords(Words(t));
    p := GenericPromptHead + Lower(Join(formatted, " ")) + GenericPromptTail;
  }

  /** Any other type gets the generic prompt naming its lower-cased words. */
  lemma PromptOfOtherType(t: string)
    requires t !in DefaultPrompts
    ensures DefaultPromptOf(t) == GenericPromptHead + Lower(ReplaceChar(t, '_', ' ')) + GenericPromptTail
  {
    LowerDocumentName(t);
  }

  // ---------------------------------------------------------------------
  // generate_document_from_summary
  // ---------------------------------------------------------------------

  /** The name under which the stored prompt for a type is looked up. */
  function PromptName(t: string): (r: string)
    ensures StartsWith(r, t) && EndsWith(r, "_generation") && |r| == |t| + 11
  {
    t + "_generation"
  }

  /** The generic prompt of the model service for the
      "documentation_generation" prompt type. */
  const DocumentationPrompt := "You are a technical documentation specialist. \n                Create clear, comprehensive documentation based on the provided codebase:\n                1. API documentation (if applicable)\n                2. Installation and setup instructions\n                3. Configuration guide\n                4. Usage examples\n                5. Architecture overview\n                6. Troubleshooting guide\n                \n                Make the documentation accessible to both technical and non-technical users where appropriate."

  /** `gemini_service.get_system_prompt("documentation_generation", name)`
      when the database lookup gives `lookup`: a non-empty stored prompt,
      else the service's generic documentation prompt; a lookup that raises
      is caught and gives None. */
  function ServicePrompt(lookup: Result<Option<string>>): (r: Option<string>)
    ensures r.None? <==> lookup.Err?
    ensures lookup.Ok? && lookup.value.Some? && lookup.value.value != [] ==> r == lookup.value
    ensures lookup.Ok? && (lookup.value.None? || lookup.value.value == []) ==> r == Some(DocumentationPrompt)
  {
    match lookup
    case Err(_) => None
    case Ok(stored) => if stored.Some? && stored.value != [] then stored else Some(DocumentationPrompt)
  }

  /** The system prompt sent: what the model service answers, or the
      default for the type when it answers nothing (or an empty text). */
  function SystemPrompt(lookup: Result<Option<string>>, t: string): (r: string)
    ensures lookup.Ok? && lookup.value.Some? && lookup.value.value != [] ==> r == lookup.value.value
    ensures lookup.Ok? && (lookup.value.None? || lookup.value.value == []) ==> r == DocumentationPrompt
    ensures lookup.Err? ==> r == DefaultPromptOf(t)
  {
    var served := ServicePrompt(lookup);
    if served.None? || served.value == [] then DefaultPromptOf(t) else served.value
  }

  /** The contents of the model call: the system prompt, a blank line and
      the context (built from the summary, which this model takes as given). */
  function ModelContents(lookup: Result<Option<string>>, t: string, context: string): (r: string)
    ensures StartsWith(r, SystemPrompt(lookup, t)) && EndsWith(r, "\n\n" + context)
    ensures |r| == |SystemPrompt(lookup, t)| + 2 + |context|
  {
    var prompt := SystemPrompt(lookup, t);
    BlankLineJoin(prompt, context);
    prompt + "\n\n" + context
  }

  lemma BlankLineJoin(head: string, tail: string)
    ensures StartsWith(head + "\n\n" + tail, head) && EndsWith(head + "\n\n" + tail, "\n\n" + tail)
  {
    var s := head + "\n\n" + tail;
    assert s[..|head|] == head;
    assert s[|head|..] == "\n\n" + tail;
  }

  /** What the model call produced. */
  datatype ModelReply =
    | CallRaised(error: string)
    | NoCandidates          // no response, or an empty candidate list
    | NoParts               // the first candidate has no content or no parts
    | Reply(text: string)   // the first part's text

  /** The outside answers one generation depends on: the database's
      prompt lookup, the model call and the insertion of the document. */
  datatype GenerationInputs = GenerationInputs(
    promptLookup: Result<Option<string>>, reply: ModelReply, stored: Result<string>)

  /** A stored document (the fields this service sets). */
  datatype Document = Document(
    id: string, repositoryId: string, title: string, content: string, documentType: string,
    description: string, version: nat, isCurrent: bool, promptName: string, summaryLength: nat)

  /** `generate_document_from_summary`: every failure is caught and yields
      None. The prompt lookup never fails the generation: the model service
      swallows its errors and the type's default prompt takes over. */
  function GenerateDocument(repositoryId: string, t: string, summary: string, inputs: GenerationInputs)
    : (r: Option<Document>)
    ensures r.Some? <==> inputs.reply.Reply? && inputs.reply.text != [] && inputs.stored.Ok?
    ensures r.Some? ==> r.value.id == inputs.stored.value && r.value.content == inputs.reply.text
                        && r.value.documentType == t && r.value.title == Title(t)
                        && r.value.description == DescriptionOf(t) && r.value.version == 1 && r.value.isCurrent
                        && r.value.promptName == PromptName(t) && r.value.summaryLength == |summary|
  {
    match inputs.reply
    case Reply(text) =>
      if text == [] || inputs.stored.Err? then None
      else Some(Document(inputs.stored.value, repositoryId, Title(t), text, t, DescriptionOf(t),
                         1, true, PromptName(t), |summary|))
    case _ => None
  }

  /** Whatever the prompt lookup does, the generation's outcome is the same. */
  lemma PromptLookupIsNonFatal(repositoryId: string, t: string, summary: string, inputs: GenerationInputs,
                               lookup: Result<Option<string>>)
    ensures GenerateDocument(repositoryId, t, summary, inputs.(promptLookup := lookup))
         == GenerateDocument(repositoryId, t, summary, inputs)
  {
  }

  // ---------------------------------------------------------------------
  // generate_multiple_documents_from_summary
  // ---------------------------------------------------------------------

  /** What the method asks of the database and the model, in order. */
  datatype Event = MarkedNotCurrent(documentType: string) | Generated(documentType: string)

  /** Index of the last occurrence of `k` in `s`, or -1. */
  function LastIndex(s: seq<string>, k: string): (r: int)
    ensures -1 <= r < |s|
    ensures r >= 0 ==> s[r] == k && forall j :: r < j < |s| ==> s[j] != k
    ensures r == -1 ==> k !in s
  {
    if s == [] then -1
    else if s[|s| - 1] == k then |s| - 1
    else LastIndex(s[..|s| - 1], k)
  }

  /** `generate_multiple_documents_from_summary`: mark the previous
      documents of each type, then generate every type, and map each type
      to its result (a type listed twice keeps its last result). */
  method GenerateMultiple(repositoryId: string, types: seq<string>, summary: string, inputs: seq<GenerationInputs>)
    returns (events: seq<Event>, results: map<string, Option<Document>>)
    requires |inputs| == |types|
    ensures events == seq(|types|, i requires 0 <= i < |types| => MarkedNotCurrent(types[i]))
                    + seq(|types|, i requires 0 <= i < |types| => Generated(types[i]))
    ensures results.Keys == set t | t in types
    ensures forall t :: t in results ==>
              results[t] == GenerateDocument(repositoryId, t, summary, inputs[LastIndex(types, t)])
  {
    events := [];
    var i := 0;
    while i < |types|
      invariant 0 <= i <= |types|
      invariant events == seq(i, j requires 0 <= j < i => MarkedNotCurrent(types[j]))
    {
      events := events + [MarkedNotCurrent(types[i])];
      i := i + 1;
    }
    var outcomes := seq(|types|, j requires 0 <= j < |types| => GenerateDocument(repositoryId, types[j], summary, inputs[j]));
    events := events + seq(|types|, j requires 0 <= j < |types| => Generated(types[j]));
    results := map[];
    i := 0;
    while i < |types|
      invariant 0 <= i <= |types|
      invariant results.Keys == set t | t in types[..i]
      invariant forall t :: t in results ==> results[t] == outcomes[LastIndex(types[..i], t)]
    {
      assert types[..i + 1][..i] == types[..i];
      assert forall t :: t in types[..i + 1] <==> t in types[..i] || t == types[i];
      results := results[types[i] := outcomes[i]];
      i := i + 1;
    }
    assert types[..i] == types;
  }
}
