/**
 * The terminal chatbot's dialogue, as values: the scripts it reveals, the
 * `{command, step, data}` record that tracks a multi-step command, and the
 * reaction to one submitted line (the lines revealed, the next record, the
 * notifications raised and whether the session asks to close). The class in
 * TerminalChatbot carries this out step by step and is proved against it.
 *
 * Revealing a line overwrites the LAST transcript entry (`prev.slice(0, -1)`),
 * so playing a script leaves only its last line behind, in the place of the
 * entry that was last before it.
 *
 * Long texts are written as concatenations of short pieces; the value is the
 * same string, and short literals keep the proofs about scripts cheap.
 */
module TerminalDialogue {
  import opened JsText
  import opened Wrappers
  import opened Notifications

  /** `ChatMessage['type']`. */
  datatype Kind = System | User | Input | Success | Error

  /** A transcript entry; the `Date.now()` id and timestamp are not modelled. */
  datatype Line = Line(text: string, kind: Kind)

  /** The fields of `currentUser` the chatbot reads. */
  datatype UserInfo = UserInfo(username: string, role: string)

  /** The four commands that collect fields over several inputs. */
  datatype Flow = AddEvidence | TransferCustody | ViewHistory | QRCode

  /** The names `handleCommandStep` stores inputs under in `data`. */
  datatype Field = EvidenceId | Description | Location | NewLocation

  /**
   * `commandState`: the command being filled in (`None` for the empty string
   * the source uses when idle), its step, the fields collected so far.
   */
  datatype CommandState = CommandState(command: Option<Flow>, step: int, data: map<Field, string>)

  const Idle: CommandState := CommandState(None, 0, map[])

  /** The cursor glyph shown at the end of a line while it is revealed. */
  const Cursor: char := '\U{2588}'

  // ---------------------------------------------------------------------
  // Commands

  /** The cases of the top-level `switch`. */
  datatype TopCommand = Help | Begin(flow: Flow) | Contact | Login | Exit

  function FlowName(flow: Flow): string {
    match flow
    case AddEvidence => "add_evidence"
    case TransferCustody => "transfer_custody"
    case ViewHistory => "view_history"
    case QRCode => "qr_code"
  }

  function CommandName(c: TopCommand): string {
    match c
    case Help => "help"
    case Begin(flow) => FlowName(flow)
    case Contact => "contact"
    case Login => "login"
    case Exit => "exit"
  }

  /** The `switch` labels: which command a normalised input names, if any. */
  function Lookup(command: string): Option<TopCommand> {
    if command == "help" then Some(Help)
    else if command == "add_evidence" then Some(Begin(AddEvidence))
    else if command == "transfer_custody" then Some(Begin(TransferCustody))
    else if command == "view_history" then Some(Begin(ViewHistory))
    else if command == "qr_code" then Some(Begin(QRCode))
    else if command == "contact" then Some(Contact)
    else if command == "login" then Some(Login)
    else if command == "exit" then Some(Exit)
    else None
  }

  /** A name that is found is the name of the command found. */
  lemma LookupOnlyByName(command: string)
    ensures Lookup(command).Some? ==> CommandName(Lookup(command).value) == command
  {
  }

  /** Every command is found under its own name, so `Lookup` and `CommandName` are inverse. */
  lemma LookupFindsEveryName(c: TopCommand)
    ensures Lookup(CommandName(c)) == Some(c)
  {
    match c
    case Help =>
    case Begin(flow) =>
      match flow {
        case AddEvidence =>
        case TransferCustody =>
        case ViewHistory =>
        case QRCode =>
      }
    case Contact =>
    case Login =>
    case Exit =>
  }

  /**
   * Command matching ignores ASCII case and surrounding whitespace: any input
   * that lower-cases to a command's name, with whitespace before or after it,
   * selects that command.
   */
  lemma LookupIgnoresCaseAndSpace(c: TopCommand, pre: string, core: string, post: string)
    requires AllWhitespace(pre) && AllWhitespace(post)
    requires ToLower(core) == CommandName(c)
    ensures Lookup(Normalize(pre + core + post)) == Some(c)
  {
    var name := CommandName(c);
    var input := pre + core + post;
    ToLowerAppend(pre + core, post);
    ToLowerAppend(pre, core);
    ToLowerKeepsWhitespace(pre);
    ToLowerKeepsWhitespace(post);
    assert ToLower(input) == pre + name + post;
    NameIsTrimmed(c);
    TrimAround(pre, name, post);
    assert Normalize(input) == name;
    LookupFindsEveryName(c);
  }

  /** A command name is non-empty and neither starts nor ends with whitespace. */
  lemma NameIsTrimmed(c: TopCommand)
    ensures var name := CommandName(c);
      name != [] && !IsJsWhitespace(name[0]) && !IsJsWhitespace(name[|name| - 1])
  {
    match c
    case Begin(flow) =>
      match flow {
        case AddEvidence =>
        case TransferCustody =>
        case ViewHistory =>
        case QRCode =>
      }
    case _ =>
  }

  /** `input.toLowerCase().trim()`, what top-level dispatch compares. */
  function Normalize(input: string): string {
    Trim(ToLower(input))
  }

  /** How many inputs a multi-step command takes after its name. */
  function Steps(flow: Flow): nat {
    match flow
    case AddEvidence => 3
    case TransferCustody => 2
    case ViewHistory => 1
    case QRCode => 1
  }

  /** The fields a command stores its inputs under, in order; the single-input commands store none. */
  function StoredFields(flow: Flow): seq<Field> {
    match flow
    case AddEvidence => [EvidenceId, Description, Location]
    case TransferCustody => [EvidenceId, NewLocation]
    case _ => []
  }

  function KeysUpTo(names: seq<Field>, n: int): set<Field> {
    set i | 0 <= i < n && i < |names| :: names[i]
  }

  /**
   * The invariant of `commandState`: idle is `{'', 0, {}}`; otherwise a
   * multi-step command at a step in 1..N whose `data` holds exactly the fields
   * of the steps before it.
   */
  predicate ValidState(st: CommandState) {
    st == Idle ||
    (st.command.Some? && 1 <= st.step <= Steps(st.command.value) &&
     st.data.Keys == KeysUpTo(StoredFields(st.command.value), st.step - 1))
  }

  /** `${data.key}` in a template: the stored value, or `undefined` when the key is absent. */
  function FieldText(data: map<Field, string>, key: Field): string {
    if key in data then data[key] else "undefined"
  }

  // ---------------------------------------------------------------------
  // Scripts: the `typeMessage` calls each handler awaits, in order

  /** `initializeChat`: the greeting played when the terminal opens on an empty transcript. */
  function InitScript(): seq<Line> {
    [ Line("> INITIALIZING " + "CHATBOT NODE...", System),
      Line(":: CONNECTION " + "SECURE [\U{2713}]", Success),
      Line(":: WELCOME TO " + "EVICHAIN :: " + "Blockchain " + "Evidence " + "Interface", System),
      Line("> How can I " + "assist you " + "today?", System),
      Line("> Type 'help' " + "to see " + "available " + "commands.", System) ]
  }

  function HelpScript(): seq<Line> {
    [ Line(":: COMMAND MENU", System),
      Line("> " + "add_evidence    " + "    \U{2192} Submit " + "new digital " + "evidence", System),
      Line("> " + "transfer_custody" + "    \U{2192} Change " + "evidence " + "ownership " + "location", System),
      Line("> " + "view_history    " + "    \U{2192} View " + "chain of custody", System),
      Line("> " + "qr_code         " + "    \U{2192} Generate " + "QR code for " + "evidence ID", System),
      Line("> " + "contact         " + "    \U{2192} Show " + "EVICHAIN " + "support details", System),
      Line("> " + "login           " + "    \U{2192} " + "Authenticate as " + "verified officer", System),
      Line("> " + "exit            " + "    \U{2192} End " + "session", System) ]
  }

  function UnknownScript(input: string): seq<Line> {
    [ Line(":: ERROR: " + "Unknown command " + "'" + input + "' [403]", Error),
      Line("> Please type " + "'help' for a " + "list of valid " + "commands.", System) ]
  }

  const EvidenceIdPrompt: Line := Line("> Evidence ID: ", Input)

  /** The script a multi-step command starts with: its name, an introduction, and the evidence id prompt. */
  function StartScript(flow: Flow): seq<Line> {
    var intro :=
      match flow
      case AddEvidence => ":: Please " + "provide the " + "following:"
      case TransferCustody => ":: Provide the " + "evidence " + "details below."
      case ViewHistory => ":: Please enter " + "the Evidence ID:"
      case QRCode => ":: Enter " + "Evidence ID to " + "generate secure " + "QR:";
    [Line("> COMMAND: " + FlowName(flow), System), Line(intro, System), EvidenceIdPrompt]
  }

  function CompleteAddEvidenceScript(): seq<Line> {
    [ Line(":: Submitting " + "evidence...", System),
      Line(":: Hash " + "generated \U{2705}", Success),
      Line(":: Evidence " + "stored securely " + "on the " + "blockchain.", System),
      Line("> Status: " + "SUCCESS \U{2705}", Success) ]
  }

  function CompleteTransferCustodyScript(): seq<Line> {
    [ Line(":: Transferring " + "custody...", System),
      Line(":: Blockchain " + "updated with " + "new hash " + "reference.", System),
      Line("> Status: " + "TRANSFER " + "COMPLETE \U{2705}", Success) ]
  }

  function CompleteViewHistoryScript(): seq<Line> {
    [ Line(":: Fetching " + "custody log...", System),
      Line(":: Rendering " + "transaction " + "history...", System),
      Line("", System),
      Line("[\U{2713}] Jan 01 2025 " + "\U{2013} Created by " + "Officer #002", Success),
      Line("[\U{2713}] Jan 03 2025 " + "\U{2013} Transferred " + "to Digital Lab A", Success),
      Line("[\U{2713}] Jan 04 2025 " + "\U{2013} Reviewed by " + "Legal Team", Success),
      Line("> End of log.", System) ]
  }

  function CompleteQRCodeScript(): seq<Line> {
    [ Line(":: Generating " + "QR Code...", System),
      Line("[\U{1F9FE} " + "QR_CODE_GENERATE" + "D]", Success),
      Line("> Use this QR " + "to scan and " + "verify evidence " + "on-site.", System) ]
  }

  function ContactScript(): seq<Line> {
    [ Line("> COMMAND: " + "contact", System),
      Line(":: EVICHAIN " + "Support Node " + "Online ::", System),
      Line("", System),
      Line("\U{1F4DE} Phone: +91 " + "98729 99283", System),
      Line("\U{1F4E7} Email: " + "info@evicain.com", System),
      Line("\U{1F4CD} Address: " + "Dehradun, " + "Uttarakhand, " + "India", System),
      Line(":: Available " + "24/7 for " + "verified legal " + "inquiries.", System) ]
  }

  function LoginScript(user: Option<UserInfo>): seq<Line> {
    match user
    case Some(u) =>
      [ Line("> COMMAND: login", System),
        Line(":: " + "Authentication " + "Status: ALREADY " + "LOGGED IN", Success),
        Line(":: Current " + "User: " + u.username, System),
        Line(":: Access " + "Level: " + u.role + " [\U{2713}]", Success) ]
    case None =>
      [ Line("> COMMAND: login", System),
        Line(":: Please use " + "the main login " + "interface", System),
        Line(":: " + "Authentication " + "Required", Error) ]
  }

  function ExitScript(): seq<Line> {
    [ Line("> COMMAND: exit", System),
      Line(":: Ending " + "Session...", System),
      Line(":: LOGGING OFF " + "EVICHAIN NODE \U{2588}", System),
      Line("> Connection " + "Terminated [\U{1F512}]", System) ]
  }

  /** What a completed command reports through `onNotification`: the evidence id it acted on. */
  datatype Note = Added(evidenceId: string) | Transferred(evidenceId: string)

  /** The message and severity of each report. */
  function Notify(note: Note): Notification {
    match note
    case Added(id) => Notification("Evidence " + id + " added " + "successfully " + "via chatbot", Warning)
    case Transferred(id) => Notification("Evidence " + id + " custody " + "transferred via " + "chatbot", Warning)
  }

  // ---------------------------------------------------------------------
  // Reacting to one line

  /** Which scripted response a reaction plays. */
  datatype Script =
    | HelpMenu
    | UnknownCommand(input: string)
    | StartCommand(flow: Flow)
    | AskDescription
    | AskLocation
    | AskNewLocation
    | AddEvidenceDone
    | TransferCustodyDone
    | ViewHistoryDone
    | QRCodeDone
    | ContactDetails
    | LoginStatus(user: Option<UserInfo>)
    | ExitSession
    | Silent

  /** The lines a script reveals, in order. */
  function Lines(script: Script): seq<Line> {
    match script
    case HelpMenu => HelpScript()
    case UnknownCommand(input) => UnknownScript(input)
    case StartCommand(flow) => StartScript(flow)
    case AskDescription => [Line("> Description: ", Input)]
    case AskLocation => [Line("> Location of " + "Incident: ", Input)]
    case AskNewLocation => [Line("> New Custodian " + "Location: ", Input)]
    case AddEvidenceDone => CompleteAddEvidenceScript()
    case TransferCustodyDone => CompleteTransferCustodyScript()
    case ViewHistoryDone => CompleteViewHistoryScript()
    case QRCodeDone => CompleteQRCodeScript()
    case ContactDetails => ContactScript()
    case LoginStatus(user) => LoginScript(user)
    case ExitSession => ExitScript()
    case Silent => []
  }

  /** Every script but the silent one reveals at least one line. */
  lemma ScriptReveals(script: Script)
    requires script != Silent
    ensures Lines(script) != []
  {
  }

  /** What one submitted line causes: the script revealed, the next state, notifications, and a close request. */
  datatype Reaction = Reaction(script: Script, next: CommandState, notes: seq<Note>, close: bool)

  /** `handleCommandStep`: the input is stored verbatim under the current step's field. */
  function Step(st: CommandState, input: string): Reaction {
    match st.command
    case Some(AddEvidence) =>
      if st.step == 1 then
        Reaction(AskDescription, st.(step := 2, data := st.data[EvidenceId := input]), [], false)
      else if st.step == 2 then
        Reaction(AskLocation, st.(step := 3, data := st.data[Description := input]), [], false)
      else if st.step == 3 then
        Reaction(AddEvidenceDone, Idle, [Added(FieldText(st.data[Location := input], EvidenceId))], false)
      else Reaction(Silent, st, [], false)
    case Some(TransferCustody) =>
      if st.step == 1 then
        Reaction(AskNewLocation, st.(step := 2, data := st.data[EvidenceId := input]), [], false)
      else if st.step == 2 then
        Reaction(TransferCustodyDone, Idle, [Transferred(FieldText(st.data[NewLocation := input], EvidenceId))], false)
      else Reaction(Silent, st, [], false)
    case Some(ViewHistory) => Reaction(ViewHistoryDone, Idle, [], false)
    case Some(QRCode) => Reaction(QRCodeDone, Idle, [], false)
    case None => Reaction(Silent, st, [], false)
  }

  /** The `switch` of `handleCommand`, given the command the normalised input names (if any). */
  function Dispatch(st: CommandState, command: Option<TopCommand>, input: string, user: Option<UserInfo>): Reaction {
    match command
    case Some(Help) => Reaction(HelpMenu, st, [], false)
    case Some(Begin(flow)) => Reaction(StartCommand(flow), CommandState(Some(flow), 1, map[]), [], false)
    case Some(Contact) => Reaction(ContactDetails, st, [], false)
    case Some(Login) => Reaction(LoginStatus(user), st, [], false)
    case Some(Exit) => Reaction(ExitSession, st, [], true)
    case None => Reaction(UnknownCommand(input), st, [], false)
  }

  /** `handleCommand`: a command in progress takes the raw input first; otherwise the normalised input is dispatched. */
  function Respond(st: CommandState, input: string, user: Option<UserInfo>): Reaction {
    React(st, Lookup(Normalize(input)), input, user)
  }

  /**
   * The body of `handleCommand` once the input has been lower-cased, trimmed
   * and looked up: `command` is what the normalised input names.
   */
  function React(st: CommandState, command: Option<TopCommand>, input: string, user: Option<UserInfo>): Reaction {
    if st.command.Some? && st.step > 0 then Step(st, input) else Dispatch(st, command, input, user)
  }

  /** The result of several submissions in a row. */
  datatype Outcome = Outcome(state: CommandState, scripts: seq<Script>, notes: seq<Note>, closed: bool)

  function Run(st: CommandState, inputs: seq<string>, user: Option<UserInfo>): Outcome
    decreases inputs
  {
    if inputs == [] then Outcome(st, [], [], false)
    else
      var r := Respond(st, inputs[0], user);
      var o := Run(r.next, inputs[1..], user);
      Outcome(o.state, [r.script] + o.scripts, r.notes + o.notes, r.close || o.closed)
  }

  // ---------------------------------------------------------------------
  // Properties of a reaction

  /** Every reaction keeps the invariant, so idle holds exactly when the step is 0. */
  lemma ReactKeepsValid(st: CommandState, command: Option<TopCommand>, input: string, user: Option<UserInfo>)
    requires ValidState(st)
    ensures ValidState(React(st, command, input, user).next)
    ensures var next := React(st, command, input, user).next; next.command.None? <==> next.step == 0
  {
    if st != Idle {
      var names := StoredFields(st.command.value);
      if st.step < Steps(st.command.value) {
        assert KeysUpTo(names, st.step) == KeysUpTo(names, st.step - 1) + {names[st.step - 1]};
      }
    }
  }

  /** From a valid state every submitted line gets a reply: the silent fall-through of `handleCommandStep` is never taken. */
  lemma ReactAnswers(st: CommandState, command: Option<TopCommand>, input: string, user: Option<UserInfo>)
    requires ValidState(st)
    ensures React(st, command, input, user).script != Silent
  {
  }

  /**
   * When idle, an input that names no command after lower-casing and
   * trimming is answered by an error line quoting the raw input and a hint,
   * and nothing else changes.
   */
  lemma UnknownCommandRejected(st: CommandState, input: string, user: Option<UserInfo>)
    requires ValidState(st) && st.step == 0
    requires Lookup(Normalize(input)) == None
    ensures Respond(st, input, user) == Reaction(UnknownCommand(input), st, [], false)
  {
  }

  /** Submitting the same unknown input twice gives two identical error-and-hint replies. */
  lemma UnknownCommandTwice(input: string, user: Option<UserInfo>)
    requires Lookup(Normalize(input)) == None
    ensures Run(Idle, [input, input], user) == Outcome(Idle, [UnknownCommand(input), UnknownCommand(input)], [], false)
  {
    UnknownCommandRejected(Idle, input, user);
    assert [input][1..] == [];
    assert Run(Idle, [input], user) == Outcome(Idle, [UnknownCommand(input)], [], false);
    assert [input, input][1..] == [input];
  }

  /**
   * While a command is in progress every input, whatever it spells, is the
   * next field value: it is stored verbatim under that step's field, or the
   * command completes and the state returns to idle.
   */
  lemma LiteralCapture(st: CommandState, command: Option<TopCommand>, input: string, user: Option<UserInfo>)
    requires ValidState(st) && st.step > 0
    ensures var next := React(st, command, input, user).next;
      var flow := st.command.value;
      if st.step == Steps(flow) then next == Idle
      else next == CommandState(Some(flow), st.step + 1, st.data[StoredFields(flow)[st.step - 1] := input])
    ensures React(st, command, input, user) == React(st, command, input, None)
  {
  }

  /**
   * Naming a multi-step command when idle starts it at step 1 with no data,
   * echoes the normalised name and asks for the evidence id.
   */
  lemma StartsCommand(st: CommandState, input: string, user: Option<UserInfo>, flow: Flow)
    requires ValidState(st) && st.step == 0
    requires Lookup(Normalize(input)) == Some(Begin(flow))
    ensures Respond(st, input, user).next == CommandState(Some(flow), 1, map[])
    ensures Respond(st, input, user).script == StartCommand(flow) && FlowName(flow) == Normalize(input)
    ensures Respond(st, input, user).notes == [] && !Respond(st, input, user).close
  {
    LookupOnlyByName(Normalize(input));
  }

  /** `help`, `contact`, `login` and `exit` leave the state as it was; only `exit` asks to close. */
  lemma SingleShotKeepsState(st: CommandState, input: string, user: Option<UserInfo>)
    requires ValidState(st) && st.step == 0
    requires Lookup(Normalize(input)).Some? && !Lookup(Normalize(input)).value.Begin?
    ensures Respond(st, input, user).next == st
    ensures Respond(st, input, user).notes == []
    ensures Respond(st, input, user).close <==> Lookup(Normalize(input)) == Some(Exit)
  {
  }

  /** `login` reports on the current user and changes nothing. */
  lemma LoginReportsUser(st: CommandState, input: string, user: Option<UserInfo>)
    requires ValidState(st) && st.step == 0 && Lookup(Normalize(input)) == Some(Login)
    ensures Respond(st, input, user) == Reaction(LoginStatus(user), st, [], false)
  {
  }

  /** The login report shows the user's name and role, or says authentication is required. */
  lemma LoginScriptNamesUser(user: Option<UserInfo>)
    ensures var lines := LoginScript(user);
      match user
      case Some(u) =>
        Line(":: Current " + "User: " + u.username, System) in lines &&
        Line(":: Access " + "Level: " + u.role + " [\U{2713}]", Success) in lines
      case None => Line(":: " + "Authentication " + "Required", Error) in lines
  {
    var lines := LoginScript(user);
    match user
    case Some(u) =>
      assert lines[2] == Line(":: Current " + "User: " + u.username, System);
      assert lines[3] == Line(":: Access " + "Level: " + u.role + " [\U{2713}]", Success);
    case None =>
      assert lines[2] == Line(":: " + "Authentication " + "Required", Error);
  }

  /** Notifications come only from completing `add_evidence` or `transfer_custody`, one each time, naming the evidence id. */
  lemma NotifiesOnlyOnCompletion(st: CommandState, command: Option<TopCommand>, input: string, user: Option<UserInfo>)
    requires ValidState(st)
    ensures var r := React(st, command, input, user);
      r.notes != [] <==>
        (st.command in {Some(AddEvidence), Some(TransferCustody)} && st.step == Steps(st.command.value))
    ensures var notes := React(st, command, input, user).notes;
      notes != [] ==>
        EvidenceId in st.data &&
        notes == [if st.command == Some(AddEvidence) then Added(st.data[EvidenceId]) else Transferred(st.data[EvidenceId])]
  {
    if st != Idle && st.step == Steps(st.command.value) && st.command != Some(ViewHistory) && st.command != Some(QRCode) {
      assert StoredFields(st.command.value)[0] == EvidenceId;
      assert EvidenceId in KeysUpTo(StoredFields(st.command.value), st.step - 1);
    }
  }

  /** On its last step a data-storing command holds exactly its fields, all of them. */
  lemma CompletionHasAllFields(st: CommandState, input: string)
    requires ValidState(st) && st.step > 0 && st.step == Steps(st.command.value)
    ensures var names := StoredFields(st.command.value);
      names != [] ==> st.data[names[|names| - 1] := input].Keys == set i | 0 <= i < |names| :: names[i]
  {
    var names := StoredFields(st.command.value);
    if names != [] {
      assert st.data.Keys == KeysUpTo(names, |names| - 1);
    }
  }

  /** `add_evidence` then any three inputs: the three fields in order, then success and one notification naming the first. */
  lemma AddEvidenceFlow(command: string, id: string, description: string, location: string, user: Option<UserInfo>)
    requires Lookup(Normalize(command)) == Some(Begin(AddEvidence))
    ensures Run(Idle, [command], user).state == CommandState(Some(AddEvidence), 1, map[])
    ensures Run(Idle, [command, id], user).state == CommandState(Some(AddEvidence), 2, map[EvidenceId := id])
    ensures Run(Idle, [command, id, description], user).state
      == CommandState(Some(AddEvidence), 3, map[EvidenceId := id, Description := description])
    ensures Run(Idle, [command, id, description, location], user)
      == Outcome(Idle, [StartCommand(AddEvidence), AskDescription, AskLocation, AddEvidenceDone], [Added(id)], false)
  {
    var s1 := CommandState(Some(AddEvidence), 1, map[]);
    assert Respond(Idle, command, user) == Reaction(StartCommand(AddEvidence), s1, [], false);
    AddEvidenceFields(id, description, location, user);
    RunOne(Idle, command, user);
    RunCons(Idle, command, [id], user);
    RunCons(Idle, command, [id, description], user);
    RunCons(Idle, command, [id, description, location], user);
  }

  /** The three inputs after `add_evidence`, from step 1. */
  lemma AddEvidenceFields(id: string, description: string, location: string, user: Option<UserInfo>)
    ensures var s1 := CommandState(Some(AddEvidence), 1, map[]);
      Run(s1, [id], user).state == CommandState(Some(AddEvidence), 2, map[EvidenceId := id]) &&
      Run(s1, [id, description], user).state
        == CommandState(Some(AddEvidence), 3, map[EvidenceId := id, Description := description]) &&
      Run(s1, [id, description, location], user)
        == Outcome(Idle, [AskDescription, AskLocation, AddEvidenceDone], [Added(id)], false)
  {
    var s1 := CommandState(Some(AddEvidence), 1, map[]);
    var s2 := CommandState(Some(AddEvidence), 2, map[EvidenceId := id]);
    assert Respond(s1, id, user) == Reaction(AskDescription, s2, [], false);
    AddEvidenceLastFields(id, description, location, user);
    RunOne(s1, id, user);
    RunCons(s1, id, [description], user);
    RunCons(s1, id, [description, location], user);
  }

  /** The description and the location, from step 2. */
  lemma AddEvidenceLastFields(id: string, description: string, location: string, user: Option<UserInfo>)
    ensures var s2 := CommandState(Some(AddEvidence), 2, map[EvidenceId := id]);
      Run(s2, [description], user).state
        == CommandState(Some(AddEvidence), 3, map[EvidenceId := id, Description := description]) &&
      Run(s2, [description, location], user) == Outcome(Idle, [AskLocation, AddEvidenceDone], [Added(id)], false)
  {
    var s2 := CommandState(Some(AddEvidence), 2, map[EvidenceId := id]);
    var s3 := CommandState(Some(AddEvidence), 3, map[EvidenceId := id, Description := description]);
    assert Respond(s2, description, user) == Reaction(AskLocation, s3, [], false);
    assert FieldText(s3.data[Location := location], EvidenceId) == id;
    assert Respond(s3, location, user) == Reaction(AddEvidenceDone, Idle, [Added(id)], false);
    RunOne(s2, description, user);
    RunOne(s3, location, user);
    RunCons(s2, description, [location], user);
  }

  /** One submission: the reaction's script, state, notifications and close request. */
  lemma RunOne(st: CommandState, input: string, user: Option<UserInfo>)
    ensures var r := Respond(st, input, user);
      Run(st, [input], user) == Outcome(r.next, [r.script], r.notes, r.close)
  {
    assert [input][1..] == [];
  }

  /** A run is the first reaction followed by the run from the state it leaves. */
  lemma RunCons(st: CommandState, input: string, rest: seq<string>, user: Option<UserInfo>)
    ensures var r := Respond(st, input, user);
      var o := Run(r.next, rest, user);
      Run(st, [input] + rest, user) == Outcome(o.state, [r.script] + o.scripts, r.notes + o.notes, r.close || o.closed)
  {
    assert ([input] + rest)[1..] == rest;
  }

  /** `transfer_custody` then any two inputs: the evidence id, the new location, then success and one notification. */
  lemma TransferCustodyFlow(command: string, id: string, location: string, user: Option<UserInfo>)
    requires Lookup(Normalize(command)) == Some(Begin(TransferCustody))
    ensures Run(Idle, [command, id], user).state == CommandState(Some(TransferCustody), 2, map[EvidenceId := id])
    ensures Run(Idle, [command, id, location], user)
      == Outcome(Idle, [StartCommand(TransferCustody), AskNewLocation, TransferCustodyDone], [Transferred(id)], false)
  {
    var s1 := CommandState(Some(TransferCustody), 1, map[]);
    assert Respond(Idle, command, user) == Reaction(StartCommand(TransferCustody), s1, [], false);
    TransferCustodyFields(id, location, user);
    RunCons(Idle, command, [id], user);
    RunCons(Idle, command, [id, location], user);
  }

  /** The two inputs after `transfer_custody`, from step 1. */
  lemma TransferCustodyFields(id: string, location: string, user: Option<UserInfo>)
    ensures var s1 := CommandState(Some(TransferCustody), 1, map[]);
      Run(s1, [id], user).state == CommandState(Some(TransferCustody), 2, map[EvidenceId := id]) &&
      Run(s1, [id, location], user) == Outcome(Idle, [AskNewLocation, TransferCustodyDone], [Transferred(id)], false)
  {
    var s1 := CommandState(Some(TransferCustody), 1, map[]);
    var s2 := CommandState(Some(TransferCustody), 2, map[EvidenceId := id]);
    assert Respond(s1, id, user) == Reaction(AskNewLocation, s2, [], false);
    assert FieldText(s2.data[NewLocation := location], EvidenceId) == id;
    assert Respond(s2, location, user) == Reaction(TransferCustodyDone, Idle, [Transferred(id)], false);
    RunOne(s1, id, user);
    RunOne(s2, location, user);
    RunCons(s1, id, [location], user);
  }

  /** `view_history` and `qr_code` take one input, reveal their fixed script and return to idle without notifying. */
  lemma SingleInputFlow(command: string, id: string, user: Option<UserInfo>, flow: Flow)
    requires flow == ViewHistory || flow == QRCode
    requires Lookup(Normalize(command)) == Some(Begin(flow))
    ensures Run(Idle, [command, id], user)
      == Outcome(Idle, [StartCommand(flow), if flow == ViewHistory then ViewHistoryDone else QRCodeDone], [], false)
  {
    var s1 := CommandState(Some(flow), 1, map[]);
    assert Respond(Idle, command, user) == Reaction(StartCommand(flow), s1, [], false);
    RunOne(s1, id, user);
    RunCons(Idle, command, [id], user);
  }

  // ---------------------------------------------------------------------
  // The transcript and the word-by-word reveal

  /** `prev.slice(0, -1)`: everything but the last entry (nothing, for an empty transcript). */
  function DropLast<T>(m: seq<T>): (r: seq<T>)
    ensures |r| == if m == [] then 0 else |m| - 1
    ensures r == m[..|r|]
  {
    if m == [] then [] else m[..|m| - 1]
  }

  /** The transcript after revealing `script` line by line, each final line replacing the last entry. */
  function Played(m: seq<Line>, script: seq<Line>): seq<Line>
    decreases script
  {
    if script == [] then m else Played(DropLast(m) + [script[0]], script[1..])
  }

  /** Playing a script leaves the transcript as it was up to its last entry, which becomes the script's last line. */
  lemma {:induction false} PlayedLast(m: seq<Line>, script: seq<Line>)
    requires script != []
    ensures Played(m, script) == DropLast(m) + [script[|script| - 1]]
    decreases script
  {
    var m' := DropLast(m) + [script[0]];
    if |script| > 1 {
      PlayedLast(m', script[1..]);
      assert DropLast(m') == DropLast(m);
    }
  }

  /** A reveal never changes the length of a non-empty transcript. */
  lemma PlayedKeepsLength(m: seq<Line>, script: seq<Line>)
    requires m != []
    ensures |Played(m, script)| == |m|
  {
    if script != [] {
      PlayedLast(m, script);
    }
  }

  /** The line echoed for an accepted input. */
  function Echo(input: string): Line {
    Line("> " + input, User)
  }

  /**
   * After a submission the transcript has grown by one entry: the echo line
   * is overwritten, and what remains is the last line of the reaction.
   */
  lemma SubmissionLeavesLastLine(m: seq<Line>, input: string, script: seq<Line>)
    requires script != []
    ensures Played(m + [Echo(input)], script) == m + [script[|script| - 1]]
    ensures |Played(m + [Echo(input)], script)| == |m| + 1
  {
    PlayedLast(m + [Echo(input)], script);
    assert DropLast(m + [Echo(input)]) == m;
  }

  /** The frames shown while `text` is revealed: the first k words, rejoined, followed by the cursor. */
  function RevealFrames(text: string): seq<string> {
    var words := Split(text);
    seq(|words|, k requires 0 <= k < |words| => Join(words[..k + 1]) + [Cursor])
  }

  /**
   * Every frame is a prefix of the text followed by the cursor, and the last
   * frame shows the whole text: rejoining the words gives the text back.
   */
  lemma RevealFramesArePrefixes(text: string)
    ensures |RevealFrames(text)| >= 1
    ensures forall k :: 0 <= k < |RevealFrames(text)| ==>
      1 <= |RevealFrames(text)[k]| <= |text| + 1 &&
      RevealFrames(text)[k] == text[..|RevealFrames(text)[k]| - 1] + [Cursor]
    ensures RevealFrames(text)[|RevealFrames(text)| - 1] == text + [Cursor]
  {
    var words := Split(text);
    var frames := RevealFrames(text);
    forall k | 0 <= k < |frames|
      ensures 1 <= |frames[k]| <= |text| + 1 && frames[k] == text[..|frames[k]| - 1] + [Cursor]
    {
      RevealFrameIsPrefix(text, k);
    }
    JoinSplit(text);
    assert words[..|words|] == words;
  }

  /** One frame of the reveal is a prefix of the text followed by the cursor. */
  lemma RevealFrameIsPrefix(text: string, k: nat)
    requires k < |RevealFrames(text)|
    ensures var frame := RevealFrames(text)[k];
      1 <= |frame| <= |text| + 1 && frame == text[..|frame| - 1] + [Cursor]
  {
    var words := Split(text);
    var shown := Join(words[..k + 1]);
    JoinSplit(text);
    JoinPrefix(words, k);
    assert |shown| <= |text| && text[..|shown|] == shown;
    var frame := RevealFrames(text)[k];
    assert frame == shown + [Cursor];
    assert |frame| - 1 == |shown|;
  }

  /** The words up to any point, rejoined, are a prefix of all the words rejoined. */
  lemma JoinPrefix(words: seq<string>, k: nat)
    requires k < |words|
    ensures var p := Join(words[..k + 1]); |p| <= |Join(words)| && Join(words)[..|p|] == p
  {
    if k + 1 < |words| {
      JoinAppend(words[..k + 1], words[k + 1..]);
      assert words[..k + 1] + words[k + 1..] == words;
    } else {
      assert words[..k + 1] == words;
    }
  }
}
