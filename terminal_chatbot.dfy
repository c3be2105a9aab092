/**
 * The terminal chatbot component as an object: the transcript, the input
 * box, the typing flag, the multi-step command record and the close request
 * are fields that its handlers update. Each handler is proved to do what the
 * dialogue model in TerminalDialogue says one submitted line does.
 *
 * Timers are not modelled: each `await` runs to completion before the next
 * statement, so a handler's effects happen in one step.
 */
module TerminalChatbot {
  import opened JsText
  import opened Wrappers
  import opened TerminalDialogue
  import opened Notifications

  /** The `onNotification` calls a list of reports makes, in order. */
  function Reports(notes: seq<Note>): (calls: seq<Notification>)
    ensures |calls| == |notes|
    ensures forall i :: 0 <= i < |notes| ==> calls[i] == Notify(notes[i])
  {
    if notes == [] then [] else [Notify(notes[0])] + Reports(notes[1..])
  }

  /** The frames up to and including the `i`-th: the words so far, rejoined, with the cursor. */
  lemma NextFrame(text: string, i: nat)
    requires i < |Split(text)|
    ensures RevealFrames(text)[..i + 1] == RevealFrames(text)[..i] + [Join(Split(text)[..i + 1]) + [Cursor]]
  {
  }

  /** `currentText += (i > 0 ? ' ' : '') + words[i]` extends the words rejoined so far by one. */
  lemma GrowText(words: seq<string>, i: nat, currentText: string)
    requires i < |words|
    requires if i == 0 then currentText == "" else currentText == Join(words[..i])
    ensures currentText + ((if i > 0 then " " else "") + words[i]) == Join(words[..i + 1])
  {
    if i > 0 {
      JoinSnoc(words[..i], words[i]);
      assert words[..i + 1] == words[..i] + [words[i]];
    } else {
      assert words[..1] == [words[0]];
    }
  }

  /** Replacing the last entry twice is replacing it once. */
  lemma DropLastAppend<T>(m: seq<T>, x: T)
    ensures DropLast(DropLast(m) + [x]) == DropLast(m)
  {
  }

  class Chatbot {
    var messages: seq<Line>
    var currentInput: string
    var isTyping: bool
    var commandState: CommandState
    /** Set by `handleExit`, which schedules `onClose`. */
    var closeRequested: bool
    /** The `currentUser` prop. */
    const currentUser: Option<UserInfo>

    /** Between handlers no reveal is under way and the command record is well formed. */
    ghost predicate Valid()
      reads this
    {
      ValidState(commandState) && !isTyping
    }

    /** The initial `useState` values. */
    constructor(user: Option<UserInfo>)
      ensures Valid()
      ensures messages == [] && currentInput == "" && commandState == Idle && !closeRequested
      ensures currentUser == user
    {
      messages := [];
      currentInput := "";
      isTyping := false;
      commandState := Idle;
      closeRequested := false;
      currentUser := user;
    }

    /** The input box's `onChange`. */
    method SetInput(text: string)
      modifies this
      ensures currentInput == text
      ensures messages == old(messages) && isTyping == old(isTyping)
      ensures commandState == old(commandState) && closeRequested == old(closeRequested)
    {
      currentInput := text;
    }

    /** `addMessage`: appends one entry to the transcript. */
    method AddMessage(text: string, kind: Kind)
      modifies this
      ensures messages == old(messages) + [Line(text, kind)]
      ensures currentInput == old(currentInput) && isTyping == old(isTyping)
      ensures commandState == old(commandState) && closeRequested == old(closeRequested)
    {
      messages := messages + [Line(text, kind)];
    }

    /**
     * `typeMessage`: reveals `text` word by word, each frame (the words so
     * far and the cursor) replacing the last transcript entry, and finally
     * replaces it with the whole text. Returns the frames shown.
     */
    method TypeMessage(text: string, kind: Kind) returns (frames: seq<string>)
      modifies this
      ensures frames == RevealFrames(text)
      ensures messages == DropLast(old(messages)) + [Line(text, kind)]
      ensures !isTyping
      ensures currentInput == old(currentInput)
      ensures commandState == old(commandState) && closeRequested == old(closeRequested)
    {
      isTyping := true;
      var words := Split(text);
      var currentText := "";
      frames := [];
      for i := 0 to |words|
        invariant if i == 0 then currentText == "" else currentText == Join(words[..i])
        invariant frames == RevealFrames(text)[..i]
        invariant messages == if i == 0 then old(messages) else DropLast(old(messages)) + [Line(currentText + [Cursor], kind)]
        invariant currentInput == old(currentInput)
        invariant commandState == old(commandState) && closeRequested == old(closeRequested)
      {
        GrowText(words, i, currentText);
        currentText := currentText + ((if i > 0 then " " else "") + words[i]);
        NextFrame(text, i);
        DropLastAppend(old(messages), Line(currentText + [Cursor], kind));
        ReplaceLast(Line(currentText + [Cursor], kind));
        frames := frames + [currentText + [Cursor]];
      }
      JoinSplit(text);
      assert words[..|words|] == words;
      ReplaceLast(Line(text, kind));
      isTyping := false;
    }

    /** `setMessages(prev => [...prev.slice(0, -1), line])`. */
    method ReplaceLast(line: Line)
      modifies this
      ensures messages == DropLast(old(messages)) + [line]
      ensures currentInput == old(currentInput) && isTyping == old(isTyping)
      ensures commandState == old(commandState) && closeRequested == old(closeRequested)
    {
      messages := DropLast(messages) + [line];
    }

    /** The `await typeMessage(...)` calls of one handler, in order. */
    method TypeAll(script: seq<Line>)
      modifies this
      ensures messages == Played(old(messages), script)
      ensures isTyping == (old(isTyping) && script == [])
      ensures currentInput == old(currentInput)
      ensures commandState == old(commandState) && closeRequested == old(closeRequested)
    {
      for i := 0 to |script|
        invariant Played(messages, script[i..]) == Played(old(messages), script)
        invariant isTyping == (old(isTyping) && i == 0)
        invariant currentInput == old(currentInput)
        invariant commandState == old(commandState) && closeRequested == old(closeRequested)
      {
        assert script[i..][1..] == script[i + 1..];
        var _ := TypeMessage(script[i].text, script[i].kind);
      }
      assert script[|script|..] == [];
    }

    /** The lines of one scripted reply. */
    method Play(script: Script)
      modifies this
      ensures messages == Played(old(messages), Lines(script))
      ensures isTyping == (old(isTyping) && script == Silent)
      ensures currentInput == old(currentInput)
      ensures commandState == old(commandState) && closeRequested == old(closeRequested)
    {
      if script != Silent {
        ScriptReveals(script);
      }
      TypeAll(Lines(script));
    }
  
    /** The `useEffect` that runs `initializeChat` when the terminal opens on an empty transcript. */
    method Open()
      modifies this
      ensures messages == if old(messages) == [] then Played([], InitScript()) else old(messages)
      ensures isTyping == (old(isTyping) && old(messages) != [])
      ensures currentInput == old(currentInput)
      ensures commandState == old(commandState) && closeRequested == old(closeRequested)
    {
      if messages == [] {
        TypeAll(InitScript());
      }
    }

    /** `showHelp`. */
    method ShowHelp()
      modifies this
      ensures messages == Played(old(messages), Lines(HelpMenu)) && !isTyping
      ensures currentInput == old(currentInput)
      ensures commandState == old(commandState) && closeRequested == old(closeRequested)
    {
      Play(HelpMenu);
    }

    /** `startAddEvidence`, `startTransferCustody`, `startViewHistory` and `startQRCode`: step 1 with no data, then the opening lines. */
    method StartFlow(flow: Flow)
      modifies this
      ensures commandState == CommandState(Some(flow), 1, map[])
      ensures messages == Played(old(messages), Lines(StartCommand(flow))) && !isTyping
      ensures currentInput == old(currentInput) && closeRequested == old(closeRequested)
    {
      commandState := CommandState(Some(flow), 1, map[]);
      Play(StartCommand(flow));
    }

    /** `completeAddEvidence`: the success lines, then one notification naming the evidence id. */
    method CompleteAddEvidence(data: map<Field, string>) returns (calls: seq<Notification>)
      modifies this
      ensures calls == Reports([Added(FieldText(data, EvidenceId))])
      ensures messages == Played(old(messages), Lines(AddEvidenceDone)) && !isTyping
      ensures currentInput == old(currentInput)
      ensures commandState == old(commandState) && closeRequested == old(closeRequested)
    {
      Play(AddEvidenceDone);
      calls := [Notify(Added(FieldText(data, EvidenceId)))];
    }

    /** `completeTransferCustody`: the transfer lines, then one notification naming the evidence id. */
    method CompleteTransferCustody(data: map<Field, string>) returns (calls: seq<Notification>)
      modifies this
      ensures calls == Reports([Transferred(FieldText(data, EvidenceId))])
      ensures messages == Played(old(messages), Lines(TransferCustodyDone)) && !isTyping
      ensures currentInput == old(currentInput)
      ensures commandState == old(commandState) && closeRequested == old(closeRequested)
    {
      Play(TransferCustodyDone);
      calls := [Notify(Transferred(FieldText(data, EvidenceId)))];
    }

    /** `showContact`. */
    method ShowContact()
      modifies this
      ensures messages == Played(old(messages), Lines(ContactDetails)) && !isTyping
      ensures currentInput == old(currentInput)
      ensures commandState == old(commandState) && closeRequested == old(closeRequested)
    {
      Play(ContactDetails);
    }

    /** `showLogin`: reports on the `currentUser` prop. */
    method ShowLogin()
      modifies this
      ensures messages == Played(old(messages), Lines(LoginStatus(currentUser))) && !isTyping
      ensures currentInput == old(currentInput)
      ensures commandState == old(commandState) && closeRequested == old(closeRequested)
    {
      Play(LoginStatus(currentUser));
    }

    /** `handleExit`: the farewell lines, then the close request the timer delivers. */
    method HandleExit()
      modifies this
      ensures messages == Played(old(messages), Lines(ExitSession)) && !isTyping
      ensures closeRequested
      ensures currentInput == old(currentInput) && commandState == old(commandState)
    {
      Play(ExitSession);
      closeRequested := true;
    }

    /** `handleCommandStep`: stores the raw input under the current step's field, or completes the command. */
    method HandleCommandStep(input: string) returns (calls: seq<Notification>)
      modifies this
      ensures var r := Step(old(commandState), input);
        commandState == r.next && messages == Played(old(messages), Lines(r.script)) && calls == Reports(r.notes)
      ensures isTyping == (old(isTyping) && Step(old(commandState), input).script == Silent)
      ensures currentInput == old(currentInput) && closeRequested == old(closeRequested)
    {
      match commandState.command {
        case Some(AddEvidence) => calls := AddEvidenceStep(input);
        case Some(TransferCustody) => calls := TransferCustodyStep(input);
        case Some(ViewHistory) =>
          CompleteViewHistory(input);
          commandState := Idle;
          calls := [];
        case Some(QRCode) =>
          CompleteQRCode(input);
          commandState := Idle;
          calls := [];
        case None => calls := [];
      }
    }

    /** The `add_evidence` case of `handleCommandStep`. */
    method AddEvidenceStep(input: string) returns (calls: seq<Notification>)
      requires commandState.command == Some(AddEvidence)
      modifies this
      ensures var r := Step(old(commandState), input);
        commandState == r.next && messages == Played(old(messages), Lines(r.script)) && calls == Reports(r.notes)
      ensures isTyping == (old(isTyping) && Step(old(commandState), input).script == Silent)
      ensures currentInput == old(currentInput) && closeRequested == old(closeRequested)
    {
      ghost var r := Step(commandState, input);
      var step, data := commandState.step, commandState.data;
      calls := [];
      if step == 1 {
        assert r.script == AskDescription;
        data := data[EvidenceId := input];
        commandState := commandState.(step := 2, data := data);
        Play(AskDescription);
      } else if step == 2 {
        assert r.script == AskLocation;
        data := data[Description := input];
        commandState := commandState.(step := 3, data := data);
        Play(AskLocation);
      } else if step == 3 {
        data := data[Location := input];
        calls := CompleteAddEvidence(data);
        commandState := Idle;
      }
    }

    /** The `transfer_custody` case of `handleCommandStep`. */
    method TransferCustodyStep(input: string) returns (calls: seq<Notification>)
      requires commandState.command == Some(TransferCustody)
      modifies this
      ensures var r := Step(old(commandState), input);
        commandState == r.next && messages == Played(old(messages), Lines(r.script)) && calls == Reports(r.notes)
      ensures isTyping == (old(isTyping) && Step(old(commandState), input).script == Silent)
      ensures currentInput == old(currentInput) && closeRequested == old(closeRequested)
    {
      ghost var r := Step(commandState, input);
      var step, data := commandState.step, commandState.data;
      calls := [];
      if step == 1 {
        assert r.script == AskNewLocation;
        data := data[EvidenceId := input];
        commandState := commandState.(step := 2, data := data);
        Play(AskNewLocation);
      } else if step == 2 {
        data := data[NewLocation := input];
        calls := CompleteTransferCustody(data);
        commandState := Idle;
      }
    }

    /** `completeViewHistory`: the fixed custody log; the evidence id is not used. */
    method CompleteViewHistory(evidenceId: string)
      modifies this
      ensures messages == Played(old(messages), Lines(ViewHistoryDone)) && !isTyping
      ensures currentInput == old(currentInput)
      ensures commandState == old(commandState) && closeRequested == old(closeRequested)
    {
      Play(ViewHistoryDone);
    }

    /** `completeQRCode`: the fixed confirmation lines; the evidence id is not used. */
    method CompleteQRCode(evidenceId: string)
      modifies this
      ensures messages == Played(old(messages), Lines(QRCodeDone)) && !isTyping
      ensures currentInput == old(currentInput)
      ensures commandState == old(commandState) && closeRequested == old(closeRequested)
    {
      Play(QRCodeDone);
    }

    /**
     * `handleCommand`: a command in progress takes the input; otherwise the
     * lower-cased, trimmed input selects a handler.
     */
    method HandleCommand(input: string) returns (calls: seq<Notification>)
      requires Valid()
      modifies this
      ensures Valid()
      ensures var r := Respond(old(commandState), input, currentUser);
        commandState == r.next && messages == Played(old(messages), Lines(r.script)) &&
        calls == Reports(r.notes) && closeRequested == (old(closeRequested) || r.close)
      ensures currentInput == old(currentInput)
    {
      ghost var found := Lookup(Normalize(input));
      ReactKeepsValid(commandState, found, input, currentUser);
      ReactAnswers(commandState, found, input, currentUser);
      var command := Normalize(input);
      if commandState.command.Some? && commandState.step > 0 {
        calls := HandleCommandStep(input);
        return;
      }
      calls := [];
      Switch(Lookup(command), input);
    }

    /** The `switch` of `handleCommand`: the handler of the named command, or the error and the hint. */
    method Switch(command: Option<TopCommand>, input: string)
      modifies this
      ensures var r := Dispatch(old(commandState), command, input, currentUser);
        commandState == r.next && messages == Played(old(messages), Lines(r.script)) &&
        r.notes == [] && closeRequested == (old(closeRequested) || r.close) && !isTyping
      ensures currentInput == old(currentInput)
    {
      match command {
        case Some(Help) => ShowHelp();
        case Some(Begin(flow)) => StartFlow(flow);
        case Some(Contact) => ShowContact();
        case Some(Login) => ShowLogin();
        case Some(Exit) => HandleExit();
        case None => Play(UnknownCommand(input));
      }
    }

    /**
     * `handleSubmit`: a line that is not blank, sent while no reveal is under
     * way, is echoed, handled, and the input box is cleared; anything else
     * changes nothing.
     */
    method Submit() returns (accepted: bool, calls: seq<Notification>)
      requires ValidState(commandState)
      modifies this
      ensures accepted <==> !AllWhitespace(old(currentInput)) && !old(isTyping)
      ensures !accepted ==>
        calls == [] && messages == old(messages) && currentInput == old(currentInput) &&
        isTyping == old(isTyping) && commandState == old(commandState) && closeRequested == old(closeRequested)
      ensures accepted ==>
        var r := Respond(old(commandState), old(currentInput), currentUser);
        messages == Played(old(messages) + [Echo(old(currentInput))], Lines(r.script)) &&
        commandState == r.next && calls == Reports(r.notes) &&
        closeRequested == (old(closeRequested) || r.close) && currentInput == "" && Valid()
      ensures accepted ==> |messages| == |old(messages)| + 1 && messages[..|old(messages)|] == old(messages)
    {
      TrimFacts(currentInput);
      accepted := Trim(currentInput) != [] && !isTyping;
      calls := [];
      if accepted {
        var input := currentInput;
        ghost var reply := Lines(Respond(commandState, input, currentUser).script);
        ReactAnswers(commandState, Lookup(Normalize(input)), input, currentUser);
        ScriptReveals(Respond(commandState, input, currentUser).script);
        SubmissionLeavesLastLine(old(messages), input, reply);
        AddMessage("> " + input, User);
        calls := HandleCommand(input);
        currentInput := "";
      }
    }
  }
}
