/**
  * The scripted chat terminal (src/components/AITerminal.tsx). A command is
  * answered by the first keyword, in a fixed priority order, that occurs in
  * its lower-cased text; "clear" wipes the conversation and every other
  * command appends the command and its answer. The widget's open flag
  * follows the parent's `externalOpen` prop and its close handler.
  */
module AITerminal {
  import opened JsStrings
  import Data

  datatype Role = User | Ai

  datatype Entry = Entry(role: Role, content: string)

  /** The six answers a command can get. */
  datatype Answer = Help | Skills | Projects | Contact | About | Denied

  /** What a command does to the conversation. */
  datatype Reply = Respond(answer: Answer) | ClearScreen

  const Greeting: string :=
    "qt_terminal_init... >_ System Online. \nHello. I am the portfolio assistant. Ask me about Sai's skills, projects, or contact info."

  const DeniedText: string := "Access denied or command not recognized. Try 'help'."

  const HelpText: string := "Available commands: 'skills', 'projects', 'contact', 'about', 'clear'."

  /** `skills.map(s => s.category)`. */
  function Categories(skills: seq<Data.SkillCategory>): (r: seq<string>)
    ensures |r| == |skills|
    ensures forall i :: 0 <= i < |skills| ==> r[i] == skills[i].category
  {
    seq(|skills|, i requires 0 <= i < |skills| => skills[i].category)
  }

  /** The site content the answers quote: PERSONAL_INFO, SKILLS and
      PROJECTS. The dispatch and the history rules hold for any content. */
  datatype Content = Content(
    info: Data.PersonalInfoRecord,
    skills: seq<Data.SkillCategory>,
    projects: seq<Data.ProjectItem>)

  const SiteContent: Content := Content(Data.PersonalInfo, Data.Skills, Data.Projects)

  function SkillsText(skills: seq<Data.SkillCategory>): string
  {
    "Analyzing neural pathways... \nCore competencies: " + Join(Categories(skills), ", ") + "."
  }

  function ProjectsText(projects: seq<Data.ProjectItem>): string
  {
    "Retrieving mission logs... \nFeatured: " + Join(Data.FeaturedTitles(projects), ", ") + "."
  }

  function ContactText(info: Data.PersonalInfoRecord): string
  {
    "Secure channel available: " + info.email
  }

  /** The text of each answer, drawn from the content where it quotes it. */
  function AnswerText(a: Answer, c: Content): string
  {
    match a
    case Help => HelpText
    case Skills => SkillsText(c.skills)
    case Projects => ProjectsText(c.projects)
    case Contact => ContactText(c.info)
    case About => c.info.bio
    case Denied => DeniedText
  }

  /** `cmd.toLowerCase().includes(keyword)`. */
  predicate Mentions(cmd: string, keyword: string)
  {
    Contains(ToLower(cmd), keyword)
  }

  /** The keyword dispatch of `handleCommand`: a clear happens only on a
      command that says "clear" and no answering keyword, "help" always gets
      the help text, and a command without any keyword is refused. */
  function Dispatch(cmd: string): (r: Reply)
    ensures r.ClearScreen? ==> Mentions(cmd, "clear") && NoAnswerKeyword(cmd)
    ensures Mentions(cmd, "help") ==> r == Respond(Help)
    ensures NoAnswerKeyword(cmd) && !Mentions(cmd, "clear") ==> r == Respond(Denied)
  {
    if Mentions(cmd, "help") then Respond(Help)
    else if Mentions(cmd, "skills") then Respond(Skills)
    else if Mentions(cmd, "projects") then Respond(Projects)
    else if Mentions(cmd, "contact") then Respond(Contact)
    else if Mentions(cmd, "about") then Respond(About)
    else if Mentions(cmd, "clear") then ClearScreen
    else Respond(Denied)
  }

  /** The command mentions none of the five answering keywords. */
  predicate NoAnswerKeyword(cmd: string)
  {
    !Mentions(cmd, "help") && !Mentions(cmd, "skills") && !Mentions(cmd, "projects")
    && !Mentions(cmd, "contact") && !Mentions(cmd, "about")
  }

  /** The history after `handleCommand(cmd)`: a clearing command leaves
      nothing; any other appends exactly the raw command as a user entry and
      then its answer, leaving every earlier entry as it was. */
  function AfterCommand(history: seq<Entry>, cmd: string, c: Content): (r: seq<Entry>)
    ensures Dispatch(cmd).ClearScreen? ==> r == []
    ensures Dispatch(cmd).Respond? ==>
      |r| == |history| + 2 && r[..|history|] == history && r[|history|] == Entry(User, cmd)
      && r[|history| + 1] == Entry(Ai, AnswerText(Dispatch(cmd).answer, c))
  {
    match Dispatch(cmd)
    case ClearScreen => []
    case Respond(a) => history + [Entry(User, cmd), Entry(Ai, AnswerText(a, c))]
  }

  /** Every user entry is immediately followed by the answer the dispatcher
      gives to it, and every non-final answer is followed by a user entry. */
  ghost predicate Conversation(h: seq<Entry>, c: Content)
  {
    && (forall i :: 0 <= i < |h| && h[i].role == User ==>
          && i + 1 < |h| && h[i + 1].role == Ai && Dispatch(h[i].content).Respond?
          && AnswerText(Dispatch(h[i].content).answer, c) == h[i + 1].content)
    && (forall i :: 0 <= i < |h| - 1 && h[i].role == Ai ==> h[i + 1].role == User)
  }

  // ---------------------------------------------------------------------
  // Properties of the dispatcher
  // ---------------------------------------------------------------------

  /** Only the lower-cased text matters: a command and its lower-case form
      are answered alike, so matching ignores case. */
  lemma DispatchIgnoresCase(cmd: string)
    ensures Dispatch(ToLower(cmd)) == Dispatch(cmd)
  {
    ToLowerIdempotent(cmd);
  }

  /** Two commands that agree up to case get the same answer. */
  lemma DispatchSameUpToCase(a: string, b: string)
    requires ToLower(a) == ToLower(b)
    ensures Dispatch(a) == Dispatch(b)
  {
  }

  /** The keywords are tried as help > skills > projects > contact > about >
      clear, and the first one present decides. */
  lemma DispatchPriority(cmd: string)
    ensures Mentions(cmd, "help") ==> Dispatch(cmd) == Respond(Help)
    ensures !Mentions(cmd, "help") && Mentions(cmd, "skills")
      ==> Dispatch(cmd) == Respond(Skills)
    ensures !Mentions(cmd, "help") && !Mentions(cmd, "skills") && Mentions(cmd, "projects")
      ==> Dispatch(cmd) == Respond(Projects)
    ensures !Mentions(cmd, "help") && !Mentions(cmd, "skills") && !Mentions(cmd, "projects")
      && Mentions(cmd, "contact")
      ==> Dispatch(cmd) == Respond(Contact)
    ensures !Mentions(cmd, "help") && !Mentions(cmd, "skills") && !Mentions(cmd, "projects")
      && !Mentions(cmd, "contact") && Mentions(cmd, "about")
      ==> Dispatch(cmd) == Respond(About)
  {
  }

  /** A command clears exactly when "clear" is its only keyword, and is
      refused with the fixed text exactly when it has no keyword at all. */
  lemma ClearAndDenied(cmd: string)
    ensures Dispatch(cmd) == ClearScreen <==> NoAnswerKeyword(cmd) && Mentions(cmd, "clear")
    ensures Dispatch(cmd) == Respond(Denied) <==> NoAnswerKeyword(cmd) && !Mentions(cmd, "clear")
  {
  }

  /** Text typed around a command never hides a keyword it mentions (a
      keyword of higher priority in the added text can still take over). */
  lemma MentionsInLonger(cmd: string, extra: string, keyword: string)
    requires Mentions(cmd, keyword)
    ensures Mentions(cmd + extra, keyword) && Mentions(extra + cmd, keyword)
  {
    ToLowerAppend(cmd, extra);
    ToLowerAppend(extra, cmd);
    ContainsInLonger(ToLower(cmd), ToLower(extra), keyword);
  }

  /** "HELP clear" is answered with the help text and does not clear. */
  lemma HelpOutranksClear()
    ensures Mentions("HELP" + " clear", "clear")
    ensures Dispatch("HELP" + " clear") == Respond(Help)
  {
    LowerHelpClear();
    var l := "help" + " clear";
    assert l[..4] == "help";
    assert Contains(" clear"[1..], "clear");
    ContainsInLonger(" clear", "help", "clear") by {
      assert " clear"[..1] + " clear"[1..] == " clear";
      ContainsInLonger(" clear"[1..], " clear"[..1], "clear");
    }
  }

  /** The lower-case form of "HELP clear". */
  lemma LowerHelpClear()
    ensures ToLower("HELP" + " clear") == "help" + " clear"
  {
    ToLowerAppend("HELP", " clear");
    LowerHelp();
    ToLowerKeeps(" clear");
  }

  lemma LowerHelp()
    ensures ToLower("HELP") == "help"
  {
    assert ToLower("HELP") == LowerChar('H') + ToLower("ELP");
    assert ToLower("ELP") == LowerChar('E') + ToLower("LP");
    assert ToLower("LP") == LowerChar('L') + ToLower("P");
  }

  /** The skills answer lists the SKILLS categories in their order. */
  lemma SkillsTextListsCategories()
    ensures SkillsText(Data.Skills) ==
      "Analyzing neural pathways... \nCore competencies: "
      + "AI & Agents" + ", " + "LLM Engineering" + ", " + "Full Stack & Cloud" + ", " + "Data & Core"
      + "."
  {
    var c := Categories(Data.Skills);
    assert c == ["AI & Agents", "LLM Engineering", "Full Stack & Cloud", "Data & Core"];
    assert Join(c[3..], ", ") == "Data & Core";
    assert Join(c[2..], ", ") == "Full Stack & Cloud" + ", " + Join(c[3..], ", ");
    assert Join(c[1..], ", ") == "LLM Engineering" + ", " + Join(c[2..], ", ");
    assert Join(c, ", ") == "AI & Agents" + ", " + Join(c[1..], ", ");
  }

  /** The projects answer lists the featured titles only, in array order. */
  lemma ProjectsTextListsFeatured()
    ensures ProjectsText(Data.Projects) ==
      "Retrieving mission logs... \nFeatured: "
      + "Chronos: LLM Time-Travel Debugger" + ", " + "Agent Persona Engine" + ", "
      + "LLM Content Classification"
      + "."
  {
    Data.ThreeFeaturedProjects();
    var t := Data.FeaturedTitles(Data.Projects);
    assert t == [Data.Chronos.title, Data.PersonaEngine.title, Data.ContentClassification.title];
    assert Join(t[2..], ", ") == "LLM Content Classification";
    assert Join(t[1..], ", ") == "Agent Persona Engine" + ", " + Join(t[2..], ", ");
    assert Join(t, ", ") == "Chronos: LLM Time-Travel Debugger" + ", " + Join(t[1..], ", ");
  }

  // ---------------------------------------------------------------------
  // Properties of the history update
  // ---------------------------------------------------------------------

  /** Every command keeps the conversation well formed. */
  lemma AfterCommandKeepsConversation(h: seq<Entry>, cmd: string, c: Content)
    requires Conversation(h, c)
    ensures Conversation(AfterCommand(h, cmd, c), c)
  {
    match Dispatch(cmd)
    case ClearScreen =>
    case Respond(a) =>
      var r := AfterCommand(h, cmd, c);
      assert r == h + [Entry(User, cmd), Entry(Ai, AnswerText(a, c))];
      forall i | 0 <= i < |r| && r[i].role == User
        ensures && i + 1 < |r| && r[i + 1].role == Ai && Dispatch(r[i].content).Respond?
          && AnswerText(Dispatch(r[i].content).answer, c) == r[i + 1].content
      {
        if i < |h| {
          assert r[i] == h[i];
          assert i + 1 < |h| && r[i + 1] == h[i + 1];
        }
      }
      forall i | 0 <= i < |r| - 1 && r[i].role == Ai
        ensures r[i + 1].role == User
      {
        if i < |h| - 1 {
          assert r[i] == h[i] && r[i + 1] == h[i + 1];
        } else if i == |h| - 1 {
          assert r[i + 1] == Entry(User, cmd);
        }
      }
  }

  /** The greeting alone is a well-formed conversation. */
  lemma GreetingIsConversation(c: Content)
    ensures Conversation([Entry(Ai, Greeting)], c)
  {
  }

  /** The terminal widget's state. */
  class Terminal {
    /** the imported site content the answers quote */
    const content: Content
    var isOpen: bool
    var input: string
    var history: seq<Entry>

    ghost predicate Valid()
      reads this
    {
      Conversation(history, content)
    }

    /** Mounted closed, with an empty input and the one greeting entry; on
        the site `content` is `SiteContent`. */
    constructor (content: Content)
      ensures Valid()
      ensures this.content == content
      ensures !isOpen && input == "" && history == [Entry(Ai, Greeting)]
    {
      this.content := content;
      GreetingIsConversation(content);
      isOpen := false;
      input := "";
      history := [Entry(Ai, Greeting)];
    }

    /** The `externalOpen` effect: a true prop opens the widget; a false one
        leaves it as it is. */
    method SyncExternalOpen(externalOpen: bool)
      modifies this
      ensures isOpen == (old(isOpen) || externalOpen)
      ensures input == old(input) && history == old(history)
    {
      if externalOpen {
        isOpen := true;
      }
    }

    /** The floating toggle button. */
    method OpenFromButton()
      modifies this
      ensures isOpen
      ensures input == old(input) && history == old(history)
    {
      isOpen := true;
    }

    /** `handleClose`: closes the widget and reports whether the parent's
        `onClose` is called, which happens exactly when one was supplied. */
    method HandleClose(hasOnClose: bool) returns (parentNotified: bool)
      modifies this
      ensures !isOpen && parentNotified == hasOnClose
      ensures input == old(input) && history == old(history)
    {
      isOpen := false;
      parentNotified := hasOnClose;
    }

    /** The input field's `onChange`. */
    method EditInput(value: string)
      modifies this
      ensures input == value
      ensures isOpen == old(isOpen) && history == old(history)
    {
      input := value;
    }

    /** `handleCommand(cmd)`. */
    method HandleCommand(cmd: string)
      requires Valid()
      modifies this
      ensures Valid()
      ensures history == AfterCommand(old(history), cmd, content)
      ensures isOpen == old(isOpen) && input == old(input)
    {
      AfterCommandKeepsConversation(history, cmd, content);
      match Dispatch(cmd)
      case ClearScreen =>
        history := [];
      case Respond(a) =>
        history := history + [Entry(User, cmd), Entry(Ai, AnswerText(a, content))];
    }

    /** `handleSubmit`: all-whitespace input is ignored; anything else is
        dispatched untrimmed and the field is emptied. */
    method HandleSubmit()
      requires Valid()
      modifies this
      ensures Valid()
      ensures isOpen == old(isOpen)
      ensures AllWhitespace(old(input)) ==> history == old(history) && input == old(input)
      ensures !AllWhitespace(old(input)) ==>
        history == AfterCommand(old(history), old(input), content) && input == ""
    {
      TrimEmptyIffBlank(input);
      if Trim(input) == "" {
        return;
      }
      HandleCommand(input);
      input := "";
    }
  }
}
