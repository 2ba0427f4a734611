/**
  The AI assistant page: binding the request fields into one fixed template per
  document type, the guard on blank project details, the simulated typing loop
  that publishes every prefix of the bound text, the Generate button's enabled
  condition and the "Use Example" action.

  Page state is the page's React state as a plain value; each state a handler
  sets is one element of a sequence.
 */
module Assistant {
  import opened Text
  import opened Kinds
  import opened Options

  // ---------------------------------------------------------------------------
  // Templates: the fixed text around the spliced fields, per document type.
  // ---------------------------------------------------------------------------

  const ProposalTitle: string :=
    "# Project Proposal"

  const ProposalIntro: string :=
    "## Executive Summary\n" +
    "Based on your requirements, I'm pleased to present this comprehensive proposal for your project.\n" +
    "\n" +
    "## Project Scope\n"

  const ProposalClosing: string :=
    "\n" +
    "\n" +
    "## Deliverables\n" +
    "\U{2022} Custom design mockups and prototypes\n" +
    "\U{2022} Fully responsive implementation\n" +
    "\U{2022} Cross-browser compatibility testing\n" +
    "\U{2022} Documentation and training\n" +
    "\n" +
    "## Timeline\n" +
    "- **Phase 1**: Discovery & Planning (1 week)\n" +
    "- **Phase 2**: Design & Development (3-4 weeks)\n" +
    "- **Phase 3**: Testing & Launch (1 week)\n" +
    "\n" +
    "## Investment\n" +
    "The total investment for this project is **$4,500 - $6,000** depending on final requirements.\n" +
    "\n" +
    "## Next Steps\n" +
    "1. Review this proposal\n" +
    "2. Schedule a follow-up call\n" +
    "3. Sign agreement and begin work\n" +
    "\n" +
    "I look forward to working with you on this exciting project!"

  const EmailSalutation: string :=
    "Subject: " + "Following Up on Our Recent Discussion" + "\n\n" + "Dear "

  const EmailIntro: string :=
    "I hope this message finds you well. I wanted to follow up on our recent conversation regarding your project.\n" +
    "\n"

  const EmailClosing: string :=
    "\n" +
    "\n" +
    "I'm excited about the opportunity to collaborate with you on this initiative. If you have any questions or would like to discuss further details, please don't hesitate to reach out.\n" +
    "\n" +
    "Looking forward to hearing from you soon.\n" +
    "\n" +
    "Best regards,\n" +
    "[Your Name]"

  const EstimateTitle: string :=
    "# Project Estimate"

  const EstimateIntro: string :=
    "## Project Overview\n"

  const EstimateClosing: string :=
    "\n" +
    "\n" +
    "## Cost Breakdown\n" +
    "\n" +
    "| Item | Description | Cost |\n" +
    "|------|-------------|------|\n" +
    "| Design | UI/UX design and prototyping | $1,500 |\n" +
    "| Development | Frontend + Backend implementation | $3,500 |\n" +
    "| Testing | QA and bug fixes | $500 |\n" +
    "| Project Management | Coordination and communication | $500 |\n" +
    "\n" +
    "## Total Estimate: **$6,000**\n" +
    "\n" +
    "## Payment Terms\n" +
    "- 30% upfront deposit\n" +
    "- 40% upon design approval\n" +
    "- 30% upon project completion\n" +
    "\n" +
    "## Validity\n" +
    "This estimate is valid for 30 days from the date of issue.\n" +
    "\n" +
    "*Note: Final costs may vary based on specific requirements and scope changes.*"

  /** The prompt "Use Example" puts into the project details, per type. Each
      starts with a letter, so none is blank. */
  function ExamplePrompt(t: DocumentType): (prompt: string)
    ensures |prompt| > 0 && 'A' <= prompt[0] <= 'Z'
    ensures !IsBlank(prompt)
  {
    match t
    case Proposal =>
      "Create a proposal for a website " +
      "redesign project for a local bakery. " +
      "The project includes homepage, " +
      "menu page, and contact form."
    case Email =>
      "Write a follow-up email to a client " +
      "about a pending project approval. " +
      "Keep it professional but friendly."
    case Estimate =>
      "Generate an estimate for building " +
      "a mobile app with user authentication, " +
      "push notifications, and payment integration."
  }

  /** The first line of a template. A titled template (proposal, estimate)
      puts the client name after `separator` in its title, and nothing when the
      name is empty; a letter (email) greets the client by name, or by
      `fallback` when the name is empty. */
  datatype Head =
    | Titled(title: string, separator: string)
    | Letter(salutation: string, fallback: string)

  /** One entry of `mockResponses`: the project details go between `intro`
      and `closing`. */
  datatype Template = Template(head: Head, intro: string, closing: string)

  function HeadOf(t: DocumentType): Head {
    match t
    case Proposal => Titled(ProposalTitle, " for ")
    case Email => Letter(EmailSalutation, "Client")
    case Estimate => Titled(EstimateTitle, " - ")
  }

  function IntroOf(t: DocumentType): string {
    match t
    case Proposal => ProposalIntro
    case Email => EmailIntro
    case Estimate => EstimateIntro
  }

  function ClosingOf(t: DocumentType): string {
    match t
    case Proposal => ProposalClosing
    case Email => EmailClosing
    case Estimate => EstimateClosing
  }

  /** The template literal `mockResponses` holds for a document type. */
  function MockResponse(t: DocumentType): Template {
    Template(HeadOf(t), IntroOf(t), ClosingOf(t))
  }

  /** The heading text for a client name (for a letter: the subject line, a
      blank line and the salutation line). An empty client name is falsy in
      both `${clientName ? sep + clientName : ""}` and `clientName || "Client"`. */
  function Heading(head: Head, clientName: string): string {
    match head
    case Titled(title, separator) =>
      if clientName == "" then title else title + separator + clientName
    case Letter(salutation, fallback) =>
      salutation + (if clientName == "" then fallback else clientName) + ","
  }

  /** The text a template puts in front of the project details. */
  function Opening(tpl: Template, clientName: string): string {
    Heading(tpl.head, clientName) + "\n\n" + tpl.intro
  }

  /** The bound text: the project details spliced verbatim between the
      template's opening and its closing. It starts with the heading line and
      a blank line, holds the details right after the opening, and ends with
      the closing. */
  function Bind(tpl: Template, clientName: string, projectDetails: string): (text: string)
    ensures Heading(tpl.head, clientName) + "\n\n" <= text
    ensures |text| == |Opening(tpl, clientName)| + |projectDetails| + |tpl.closing|
    ensures text[|Opening(tpl, clientName)|..|text| - |tpl.closing|] == projectDetails
    ensures text[|text| - |tpl.closing|..] == tpl.closing
  {
    var h := Heading(tpl.head, clientName) + "\n\n";
    var text := Opening(tpl, clientName) + projectDetails + tpl.closing;
    assert text == h + (tpl.intro + projectDetails + tpl.closing);
    text
  }

  /** Every bound text contains the project details. */
  lemma BindContainsDetails(tpl: Template, clientName: string, projectDetails: string)
    ensures Includes(Bind(tpl, clientName, projectDetails), projectDetails)
  {
    IncludesSpliced(Opening(tpl, clientName), projectDetails, tpl.closing);
  }

  /** The details are spliced without alteration: different details always give
      different documents. */
  lemma BindInjective(tpl: Template, clientName: string, d1: string, d2: string)
    requires Bind(tpl, clientName, d1) == Bind(tpl, clientName, d2)
    ensures d1 == d2
  {
    var o := Opening(tpl, clientName);
    assert d1 == Bind(tpl, clientName, d1)[|o|..|o| + |d1|];
    assert d2 == Bind(tpl, clientName, d2)[|o|..|o| + |d2|];
  }

  /** The text a click on Generate produces for a type: `mockResponses[type]`.
      It starts with the type's heading and a blank line, and holds the project
      details verbatim. */
  function Response(t: DocumentType, clientName: string, projectDetails: string): (text: string)
    ensures Heading(HeadOf(t), clientName) + "\n\n" <= text
    ensures Includes(text, projectDetails)
  {
    BindContainsDetails(MockResponse(t), clientName, projectDetails);
    Bind(MockResponse(t), clientName, projectDetails)
  }

  /** The client name shows in a heading only when it is non-empty: the
      proposal title gets " for " and the name, the estimate title " - " and
      the name, and with an empty name both titles stand alone; the email
      greets the client by name, or as "Client" when the name is empty. */
  lemma HeadingNamesClient(t: DocumentType, clientName: string)
    ensures t == Proposal ==> (Heading(HeadOf(t), clientName) ==
      if clientName == "" then "# Project Proposal" else "# Project Proposal for " + clientName)
    ensures t == Estimate ==> (Heading(HeadOf(t), clientName) ==
      if clientName == "" then "# Project Estimate" else "# Project Estimate - " + clientName)
    ensures t == Email ==> (Heading(HeadOf(t), clientName) ==
      "Subject: " + "Following Up on Our Recent Discussion" + "\n\n" + "Dear "
      + (if clientName == "" then "Client" else clientName) + ",")
  {
  }

  /** A non-empty client name appears verbatim in every bound text. */
  lemma BindNamesClient(tpl: Template, clientName: string, projectDetails: string)
    requires clientName != ""
    ensures Includes(Bind(tpl, clientName, projectDetails), clientName)
  {
    var rest := "\n\n" + tpl.intro + projectDetails + tpl.closing;
    match tpl.head {
      case Titled(title, separator) =>
        assert Bind(tpl, clientName, projectDetails) == (title + separator) + clientName + rest;
        IncludesSpliced(title + separator, clientName, rest);
      case Letter(salutation, fallback) =>
        assert Bind(tpl, clientName, projectDetails) == salutation + clientName + ("," + rest);
        IncludesSpliced(salutation, clientName, "," + rest);
    }
  }

  /** A non-empty client name appears verbatim in the response of every type. */
  lemma ResponseNamesClient(t: DocumentType, clientName: string, projectDetails: string)
    requires clientName != ""
    ensures Includes(Response(t, clientName, projectDetails), clientName)
  {
    BindNamesClient(MockResponse(t), clientName, projectDetails);
  }

  /** Reads the document type back off a text by its first line. */
  function TypeOf(text: string): Option<DocumentType> {
    if ProposalTitle <= text then Some(Proposal)
    else if EstimateTitle <= text then Some(Estimate)
    else if EmailSalutation <= text then Some(Email)
    else None
  }

  /** The type can be read back off any text that starts with a heading of it. */
  lemma TypeOfHeading(t: DocumentType, clientName: string, text: string)
    requires Heading(HeadOf(t), clientName) + "\n\n" <= text
    ensures TypeOf(text) == Some(t)
  {
    match t {
      case Proposal =>
        assert text[..|ProposalTitle|] == ProposalTitle;
      case Estimate =>
        assert text[10] == EstimateTitle[10] == 'E' != ProposalTitle[10];
        assert text[..|EstimateTitle|] == EstimateTitle;
      case Email =>
        assert text[0] == EmailSalutation[0] == 'S' != ProposalTitle[0];
        assert text[0] != EstimateTitle[0];
        assert text[..|EmailSalutation|] == EmailSalutation;
    }
  }

  /** The template is chosen by the selected type alone: the type can be read
      back off every response, whatever the client name and details, so
      different types never produce the same document. */
  lemma TypeReadBack(t: DocumentType, clientName: string, projectDetails: string)
    ensures TypeOf(Response(t, clientName, projectDetails)) == Some(t)
  {
    TypeOfHeading(t, clientName, Response(t, clientName, projectDetails));
  }

  // ---------------------------------------------------------------------------
  // The typing loop.
  // ---------------------------------------------------------------------------

  /** The values the loop publishes from iteration `i` on:
      `response.slice(0, i)`, ..., `response.slice(0, response.length)`. */
  function TypingFrom(response: string, i: nat): (trace: seq<string>)
    requires i <= |response|
    ensures |trace| == |response| - i + 1
    ensures forall k :: 0 <= k < |trace| ==> trace[k] == response[..i + k]
    decreases |response| - i
  {
    if i == |response| then [response]
    else [response[..i]] + TypingFrom(response, i + 1)
  }

  /** Every value the typing loop publishes, in order. It starts empty, grows by
      exactly the next character of the response at each step, every value is a
      prefix of the response whose length is its step number, and the last value
      is the whole response. */
  function TypingTrace(response: string): (trace: seq<string>)
    ensures |trace| == |response| + 1
    ensures trace[0] == "" && trace[|response|] == response
    ensures forall i :: 0 <= i < |trace| ==> trace[i] <= response && |trace[i]| == i
    ensures forall i :: 0 <= i < |response| ==> trace[i + 1] == trace[i] + [response[i]]
  {
    var trace := TypingFrom(response, 0);
    assert forall i :: 0 <= i < |response| ==> response[..i + 1] == response[..i] + [response[i]];
    trace
  }

  // ---------------------------------------------------------------------------
  // Page state and its handlers.
  // ---------------------------------------------------------------------------

  /** The page's React state, without the copied-to-clipboard flag. */
  datatype AssistantState = AssistantState(
    selectedType: DocumentType,
    clientName: string,
    projectDetails: string,
    generatedContent: string,
    isGenerating: bool)

  /** The state the page mounts with. */
  const Initial := AssistantState(Proposal, "", "", "", false)

  /** The page mounts with Generate disabled. */
  lemma InitiallyDisabled()
    ensures !GenerateEnabled(Initial)
  {
  }

  /** Two states hold the same form inputs. */
  predicate SameInputs(a: AssistantState, b: AssistantState) {
    a.selectedType == b.selectedType && a.clientName == b.clientName && a.projectDetails == b.projectDetails
  }

  /** The text a click on Generate produces from the current form inputs. */
  function ResponseFor(s: AssistantState): string {
    Response(s.selectedType, s.clientName, s.projectDetails)
  }

  /** `disabled={isGenerating || !projectDetails.trim()}`: the Generate button
      is enabled when nothing is being generated and the details hold a
      character that is not trim-able. */
  predicate GenerateEnabled(s: AssistantState): (enabled: bool)
    ensures enabled <==>
      !s.isGenerating && exists i :: 0 <= i < |s.projectDetails| && !IsSpace(s.projectDetails[i])
  {
    !s.isGenerating && !IsBlank(s.projectDetails)
  }

  /** A click on an enabled button always starts a whole run. */
  lemma EnabledClickRuns(s: AssistantState)
    ensures GenerateEnabled(s) ==> |HandleGenerate(s)| == |ResponseFor(s)| + 3
  {
  }

  /** The states a run over `response` sets, in order: the state after the
      set-up (generating, content cleared), the state after each loop
      iteration, and the state after the loop (generating flag cleared). React
      may show some of these as one render; the model keeps them apart. */
  function Run(s: AssistantState, response: string): (states: seq<AssistantState>)
    ensures |states| == |response| + 3
    ensures forall k :: 0 <= k < |states| ==> SameInputs(states[k], s)
    ensures forall k :: 0 <= k < |states| ==> states[k].generatedContent <= response
    ensures forall k :: 0 <= k < |states| - 1 ==> states[k].isGenerating
    ensures states[0].generatedContent == ""
    ensures forall k :: 1 <= k < |states| - 1 ==> |states[k].generatedContent| == k - 1
    ensures forall k :: 1 <= k < |states| - 2 ==>
      states[k + 1].generatedContent == states[k].generatedContent + [response[k - 1]]
    ensures states[|states| - 1].generatedContent == response && !states[|states| - 1].isGenerating
  {
    var trace := TypingTrace(response);
    [s.(isGenerating := true, generatedContent := "")]
    + seq(|trace|, i requires 0 <= i < |trace| => s.(isGenerating := true, generatedContent := trace[i]))
    + [s.(isGenerating := false, generatedContent := response)]
  }

  /** The states `handleGenerate` sets once `response` has been looked up:
      nothing when the trimmed details are empty, and a whole run otherwise. */
  function Generate(s: AssistantState, response: string): (states: seq<AssistantState>)
    ensures |states| == 0 <==> IsBlank(s.projectDetails)
    ensures |states| > 0 ==> |states| == |response| + 3
    ensures forall k :: 0 <= k < |states| ==> SameInputs(states[k], s)
    ensures forall k :: 0 <= k < |states| ==> states[k].generatedContent <= response
    ensures forall k :: 0 <= k < |states| - 1 ==> states[k].isGenerating
    ensures |states| > 0 ==> states[0].generatedContent == ""
    ensures forall k :: 1 <= k < |states| - 1 ==> |states[k].generatedContent| == k - 1
    ensures forall k :: 1 <= k < |states| - 2 ==>
      states[k + 1].generatedContent == states[k].generatedContent + [response[k - 1]]
    ensures |states| > 0 ==>
      states[|states| - 1].generatedContent == response && !states[|states| - 1].isGenerating
  {
    if IsBlank(s.projectDetails) then [] else Run(s, response)
  }

  /** The successive states a click on Generate sets. With blank details there
      are none; otherwise every state keeps the inputs and holds a prefix of the
      response for the current inputs, and the last one holds the whole
      response and is no longer generating. */
  function HandleGenerate(s: AssistantState): (states: seq<AssistantState>)
    ensures |states| == 0 <==> IsBlank(s.projectDetails)
    ensures forall k :: 0 <= k < |states| ==>
      SameInputs(states[k], s) && states[k].generatedContent <= ResponseFor(s)
    ensures |states| > 0 ==>
      states[|states| - 1].generatedContent == ResponseFor(s) && !states[|states| - 1].isGenerating
  {
    Generate(s, ResponseFor(s))
  }

  /** The state the page settles in after `handleGenerate` has run. */
  function Settled(s: AssistantState): AssistantState {
    var states := HandleGenerate(s);
    if |states| == 0 then s else states[|states| - 1]
  }

  /** With blank project details the handler is a no-op: it sets no state and
      leaves the state, the content and the generating flag as they were. */
  lemma BlankIsNoOp(s: AssistantState)
    ensures IsBlank(s.projectDetails) ==> HandleGenerate(s) == [] && Settled(s) == s
  {
  }

  /** After a run the page shows the whole response, is no longer generating,
      keeps its inputs and can generate again; generating again from there
      settles in the very same state. */
  lemma RegenerateIsIdempotent(s: AssistantState)
    requires !IsBlank(s.projectDetails)
    ensures Settled(s).generatedContent == ResponseFor(s)
    ensures !Settled(s).isGenerating && SameInputs(Settled(s), s)
    ensures GenerateEnabled(Settled(s))
    ensures Settled(Settled(s)) == Settled(s)
  {
    var f := Settled(s);
    assert ResponseFor(f) == ResponseFor(s);
  }

  /** While a run is in progress the Generate button is disabled, so a second
      run cannot be started from the page. */
  lemma DisabledWhileGenerating(s: AssistantState)
    ensures forall k :: 0 <= k < |HandleGenerate(s)| - 1 ==> !GenerateEnabled(HandleGenerate(s)[k])
  {
  }

  /** "Use Example" fills in the selected type's example prompt. */
  function UseExample(s: AssistantState): (r: AssistantState)
    ensures SameInputs(r, s.(projectDetails := ExamplePrompt(s.selectedType)))
    ensures r.generatedContent == s.generatedContent && r.isGenerating == s.isGenerating
    ensures GenerateEnabled(r) <==> !s.isGenerating
  {
    s.(projectDetails := ExamplePrompt(s.selectedType))
  }
}
