/**
 * The per-mode session state the app keeps across reruns: for each mode key
 * an ordered message list, a start time and a player role, held in three
 * dictionaries that the host updates in place. Also the per-turn flow:
 * append the user's message, build the model's history and prompt, append
 * the model's reply, and optionally autosave.
 */
module SessionStore {
  import opened Wrappers
  import opened Text
  import Clock
  import Modes
  import PromptUtils
  import opened Recorder

  const QUALITATIVE_GREETING :=
    "I am your Beer Game qualitative coach. Share your round context or decisions, and I will help "
    + "you reason about delays, backlog, and the bullwhip effect."

  const QUANTITATIVE_GREETING :=
    "I am your Beer Game quantitative coach. Send the numbers you have, and I will walk through the "
    + "formulas and calculations step by step."

  /**
   * The single assistant message a mode starts from: the qualitative
   * greeting for the qualitative key, the quantitative one for any other.
   */
  function SeedTurn(mode: string): (turn: Turn)
    ensures turn.role == "assistant"
    ensures turn.content == QUALITATIVE_GREETING <==> mode == Modes.QUALITATIVE_MODE
    ensures turn.content == QUANTITATIVE_GREETING <==> mode != Modes.QUALITATIVE_MODE
  {
    assert |QUALITATIVE_GREETING| != |QUANTITATIVE_GREETING|;
    Turn("assistant", if mode == Modes.QUALITATIVE_MODE then QUALITATIVE_GREETING else QUANTITATIVE_GREETING)
  }

  // The model's view of the conversation

  /** A LangChain message: `HumanMessage` or `AIMessage`. */
  datatype ChatMessage = Human(content: string) | Ai(content: string)

  /** What the model returns for one call: a reply (whose content may be `None`), or an exception. */
  datatype LlmReply = Replied(content: Option<string>) | Failed(error: string)

  predicate IsDialogue(turn: Turn) {
    turn.role == "user" || turn.role == "assistant"
  }

  predicate AllDialogue(turns: seq<Turn>) {
    forall i | 0 <= i < |turns| :: IsDialogue(turns[i])
  }

  /** The history handed to the model for `turns`: user and assistant turns converted, anything else dropped. */
  function LlmHistory(turns: seq<Turn>): (history: seq<ChatMessage>)
    ensures |history| <= |turns|
  {
    if turns == [] then []
    else
      var last := turns[|turns| - 1];
      LlmHistory(turns[..|turns| - 1])
      + (if last.role == "user" then [Human(last.content)]
         else if last.role == "assistant" then [Ai(last.content)]
         else [])
  }

  function AsTurn(message: ChatMessage): Turn {
    match message
    case Human(c) => Turn("user", c)
    case Ai(c) => Turn("assistant", c)
  }

  function AsTurns(history: seq<ChatMessage>): (turns: seq<Turn>)
    ensures |turns| == |history|
  {
    seq(|history|, i requires 0 <= i < |history| => AsTurn(history[i]))
  }

  /** The user and assistant turns of `turns`, in order. */
  function Dialogue(turns: seq<Turn>): seq<Turn> {
    if turns == [] then []
    else (if IsDialogue(turns[0]) then [turns[0]] else []) + Dialogue(turns[1..])
  }

  lemma {:induction false} DialogueAppend(turns: seq<Turn>, last: Turn)
    ensures Dialogue(turns + [last]) == Dialogue(turns) + (if IsDialogue(last) then [last] else [])
  {
    if turns == [] {
      assert [] + [last] == [last];
      assert [last][1..] == [];
    } else {
      var whole := turns + [last];
      assert whole[0] == turns[0];
      assert whole[1..] == turns[1..] + [last];
      var head := if IsDialogue(turns[0]) then [turns[0]] else [];
      var tail := if IsDialogue(last) then [last] else [];
      DialogueAppend(turns[1..], last);
      assert Dialogue(whole) == head + (Dialogue(turns[1..]) + tail);
      assert head + (Dialogue(turns[1..]) + tail) == (head + Dialogue(turns[1..])) + tail;
    }
  }

  /**
   * The history is exactly the user and assistant turns, in their original
   * order, each converted to the message kind of its speaker.
   */
  lemma {:induction false} HistoryKeepsDialogue(turns: seq<Turn>)
    ensures AsTurns(LlmHistory(turns)) == Dialogue(turns)
  {
    if turns != [] {
      var front, last := turns[..|turns| - 1], turns[|turns| - 1];
      assert turns == front + [last];
      HistoryKeepsDialogue(front);
      DialogueAppend(front, last);
      var tail := if last.role == "user" then [Human(last.content)]
                  else if last.role == "assistant" then [Ai(last.content)]
                  else [];
      assert AsTurns(LlmHistory(front) + tail) == AsTurns(LlmHistory(front)) + AsTurns(tail);
    }
  }

  /** A conversation made only of user and assistant turns is its own dialogue. */
  lemma {:induction false} DialogueOfDialogue(turns: seq<Turn>)
    requires AllDialogue(turns)
    ensures Dialogue(turns) == turns
  {
    if turns != [] {
      DialogueOfDialogue(turns[1..]);
      assert [turns[0]] + turns[1..] == turns;
    }
  }

  /** Every earlier message but the newest one, `messages[:-1]`. */
  function Prior(messages: seq<Turn>): seq<Turn>
    requires messages != []
  {
    messages[..|messages| - 1]
  }

  // The session store

  class Store {
    var messagesByMode: map<string, seq<Turn>>
    var startTimeByMode: map<string, Clock.DateTime>
    var playerRoleByMode: map<string, string>

    /** Both modes have state in all three dictionaries, and every conversation is a non-empty dialogue. */
    ghost predicate Valid()
      reads this
    {
      && Modes.QUALITATIVE_MODE in messagesByMode && Modes.QUANTITATIVE_MODE in messagesByMode
      && Modes.QUALITATIVE_MODE in startTimeByMode && Modes.QUANTITATIVE_MODE in startTimeByMode
      && Modes.QUALITATIVE_MODE in playerRoleByMode && Modes.QUANTITATIVE_MODE in playerRoleByMode
      && forall mode | mode in messagesByMode ::
           messagesByMode[mode] != [] && AllDialogue(messagesByMode[mode])
    }

    /** First run: both modes start now, with the sidebar's role and their own greeting. */
    constructor (now: Clock.DateTime, selectedRole: string)
      ensures Valid()
      ensures messagesByMode == map[Modes.QUALITATIVE_MODE := [SeedTurn(Modes.QUALITATIVE_MODE)],
                                    Modes.QUANTITATIVE_MODE := [SeedTurn(Modes.QUANTITATIVE_MODE)]]
      ensures startTimeByMode == map[Modes.QUALITATIVE_MODE := now, Modes.QUANTITATIVE_MODE := now]
      ensures playerRoleByMode == map[Modes.QUALITATIVE_MODE := selectedRole,
                                      Modes.QUANTITATIVE_MODE := selectedRole]
    {
      startTimeByMode := map[Modes.QUALITATIVE_MODE := now, Modes.QUANTITATIVE_MODE := now];
      playerRoleByMode := map[Modes.QUALITATIVE_MODE := selectedRole,
                              Modes.QUANTITATIVE_MODE := selectedRole];
      messagesByMode := map[
        Modes.QUALITATIVE_MODE := [Turn("assistant", QUALITATIVE_GREETING)],
        Modes.QUANTITATIVE_MODE := [Turn("assistant", QUANTITATIVE_GREETING)]];
    }

    /** Every rerun records the sidebar's role for the selected mode only (last write wins). */
    method SetRole(mode: string, role: string)
      requires Valid()
      modifies this
      ensures Valid()
      ensures playerRoleByMode == old(playerRoleByMode)[mode := role]
      ensures messagesByMode == old(messagesByMode) && startTimeByMode == old(startTimeByMode)
    {
      playerRoleByMode := playerRoleByMode[mode := role];
    }

    /**
     * "Clear Current Mode Chat": the selected mode goes back to its single
     * greeting and starts now; the other mode and every role are untouched.
     */
    method Clear(mode: string, now: Clock.DateTime)
      requires Valid()
      modifies this
      ensures Valid()
      ensures messagesByMode == old(messagesByMode)[mode := [SeedTurn(mode)]]
      ensures startTimeByMode == old(startTimeByMode)[mode := now]
      ensures playerRoleByMode == old(playerRoleByMode)
    {
      if mode == Modes.QUALITATIVE_MODE {
        messagesByMode := messagesByMode[mode := [Turn("assistant", QUALITATIVE_GREETING)]];
      } else {
        messagesByMode := messagesByMode[mode := [Turn("assistant", QUANTITATIVE_GREETING)]];
      }
      startTimeByMode := startTimeByMode[mode := now];
    }

    /** `messages.append(turn)` on the selected mode's list. */
    method Append(mode: string, turn: Turn)
      requires Valid() && mode in messagesByMode && IsDialogue(turn)
      modifies this
      ensures Valid()
      ensures messagesByMode == old(messagesByMode)[mode := old(messagesByMode[mode]) + [turn]]
      ensures startTimeByMode == old(startTimeByMode) && playerRoleByMode == old(playerRoleByMode)
    {
      messagesByMode := messagesByMode[mode := messagesByMode[mode] + [turn]];
    }

    /**
     * The history sent to the model: `messages[:-1]` converted message by
     * message. Since the store only ever holds user and assistant turns, it
     * is all of them, in order.
     */
    method History(mode: string) returns (history: seq<ChatMessage>)
      requires Valid() && mode in messagesByMode
      ensures history == LlmHistory(Prior(messagesByMode[mode]))
      ensures AsTurns(history) == Prior(messagesByMode[mode])
    {
      var prior := messagesByMode[mode][..|messagesByMode[mode]| - 1];
      history := [];
      var i := 0;
      while i < |prior|
        invariant 0 <= i <= |prior|
        invariant history == LlmHistory(prior[..i])
      {
        var message := prior[i];
        if message.role == "user" {
          history := history + [Human(message.content)];
        } else if message.role == "assistant" {
          history := history + [Ai(message.content)];
        }
        assert prior[..i + 1][..i] == prior[..i];
        i := i + 1;
      }
      assert prior[..i] == prior;
      assert AllDialogue(prior) by {
        assert AllDialogue(messagesByMode[mode]);
      }
      HistoryKeepsDialogue(prior);
      DialogueOfDialogue(prior);
    }

    /** "Save Conversation to GCP": saves the selected mode with its stored role; nothing in the store changes. */
    method Save(mode: string, pid: Option<string>, endTime: Clock.DateTime,
                store: (string, seq<Row>) -> IoOutcome)
      returns (fileName: Option<string>, error: Option<string>)
      requires Valid() && mode in messagesByMode && mode in playerRoleByMode
      ensures SaveReport(fileName, error)
           == SaveConversation(messagesByMode[mode], mode, pid, playerRoleByMode[mode],
                               startTimeByMode, endTime, store)
      ensures fileName.Some? <==> error.None?
      ensures Blank(pid) ==> fileName == None && error == Some(MISSING_PID)
    {
      var report := SaveConversation(messagesByMode[mode], mode, pid, playerRoleByMode[mode],
                                     startTimeByMode, endTime, store);
      fileName, error := report.fileName, report.error;
    }

    /**
     * The first half of a chat turn: the user's message is appended, then
     * the history before it and the prompt for the stored role are built.
     */
    method Ask(mode: string, input: string) returns (history: seq<ChatMessage>, prompt: string)
      requires Valid() && mode in messagesByMode && mode in playerRoleByMode
      modifies this
      ensures Valid()
      ensures messagesByMode == old(messagesByMode)[mode := old(messagesByMode[mode]) + [Turn("user", input)]]
      ensures startTimeByMode == old(startTimeByMode) && playerRoleByMode == old(playerRoleByMode)
      ensures history == LlmHistory(old(messagesByMode[mode]))
      ensures AsTurns(history) == old(messagesByMode[mode])
      ensures prompt == PromptUtils.BuildBeerGamePrompt(mode, Some(playerRoleByMode[mode]))
    {
      Append(mode, Turn("user", input));
      history := History(mode);
      assert Prior(messagesByMode[mode]) == old(messagesByMode[mode]);
      var playerRole := playerRoleByMode[mode];
      prompt := PromptUtils.BuildBeerGamePrompt(mode, Some(playerRole));
    }

    /**
     * The second half of a chat turn, once the model has been called: a
     * reply is stripped and appended and the conversation autosaved if that
     * is on; when the call raised, nothing changes.
     */
    method Answer(mode: string, reply: LlmReply, pid: Option<string>, autosave: bool,
                  endTime: Clock.DateTime, store: (string, seq<Row>) -> IoOutcome)
      returns (saved: Option<SaveReport>)
      requires Valid() && mode in messagesByMode && mode in playerRoleByMode
      modifies this
      ensures Valid()
      ensures startTimeByMode == old(startTimeByMode) && playerRoleByMode == old(playerRoleByMode)
      ensures messagesByMode == old(messagesByMode)[mode :=
                old(messagesByMode[mode])
                + (if reply.Replied? then [Turn("assistant", Strip(reply.content.GetOr("")))] else [])]
      ensures saved == (if reply.Replied? && autosave
                        then Some(SaveConversation(messagesByMode[mode], mode, pid,
                                                   playerRoleByMode[mode], startTimeByMode,
                                                   endTime, store))
                        else None)
    {
      saved := None;
      if reply.Failed? {
        assert old(messagesByMode[mode]) + [] == old(messagesByMode[mode]);
        assert old(messagesByMode)[mode := old(messagesByMode[mode])] == old(messagesByMode);
        return;
      }
      Append(mode, Turn("assistant", Strip(reply.content.GetOr(""))));
      if autosave {
        var fileName, error := Save(mode, pid, endTime, store);
        saved := Some(SaveReport(fileName, error));
      }
    }

    /**
     * One chat turn for a submitted input: the user's message is appended,
     * the model is called with the prompt for the stored role and the
     * history before that message, its stripped reply is appended, and the
     * conversation is saved if autosave is on. When the model call raises,
     * the user's message stays and nothing else happens. An empty input is
     * no turn at all.
     */
    method UserTurn(mode: string, chatInput: Option<string>, pid: Option<string>, autosave: bool,
                    endTime: Clock.DateTime,
                    llm: (string, seq<ChatMessage>, string) -> LlmReply,
                    store: (string, seq<Row>) -> IoOutcome)
      returns (history: seq<ChatMessage>, prompt: string, saved: Option<SaveReport>)
      requires Valid() && mode in messagesByMode && mode in playerRoleByMode
      modifies this
      ensures Valid()
      ensures startTimeByMode == old(startTimeByMode) && playerRoleByMode == old(playerRoleByMode)
      ensures Blank(chatInput) ==> messagesByMode == old(messagesByMode) && saved == None
      ensures !Blank(chatInput) ==>
                && history == LlmHistory(old(messagesByMode[mode]))
                && prompt == PromptUtils.BuildBeerGamePrompt(mode, Some(playerRoleByMode[mode]))
      ensures !Blank(chatInput) ==>
                var reply := llm(prompt, history, chatInput.value);
                && messagesByMode == old(messagesByMode)[mode :=
                     old(messagesByMode[mode]) + [Turn("user", chatInput.value)]
                     + (if reply.Replied? then [Turn("assistant", Strip(reply.content.GetOr("")))] else [])]
                && saved == (if reply.Replied? && autosave
                             then Some(SaveConversation(messagesByMode[mode], mode, pid,
                                                        playerRoleByMode[mode], startTimeByMode,
                                                        endTime, store))
                             else None)
    {
      history, prompt, saved := [], "", None;
      if Blank(chatInput) {
        return;
      }
      var input := chatInput.value;
      history, prompt := Ask(mode, input);
      ghost var asked := messagesByMode;
      ghost var user := old(messagesByMode[mode]) + [Turn("user", input)];
      var reply := llm(prompt, history, input);
      saved := Answer(mode, reply, pid, autosave, endTime, store);
      ghost var extra := if reply.Replied? then [Turn("assistant", Strip(reply.content.GetOr("")))] else [];
      OverwriteTwice(old(messagesByMode), mode, user, user + extra);
    }
  }

  lemma OverwriteTwice<K, V>(m: map<K, V>, k: K, first: V, second: V)
    ensures m[k := first][k := second] == m[k := second]
  {
  }

  /**
   * The three places that branch on the mode disagree about a mode key that
   * is neither of the two: the prompt falls back to qualitative coaching,
   * while the file name and the cleared greeting fall back to quantitative.
   */
  lemma UnknownModeFallbacks(mode: string)
    requires mode != Modes.QUALITATIVE_MODE && mode != Modes.QUANTITATIVE_MODE
    ensures PromptUtils.ModeExtra(mode) == PromptUtils.QUALITATIVE_EXTRA
    ensures ModeSuffix(mode) == QUANTITATIVE_SUFFIX
    ensures SeedTurn(mode).content == QUANTITATIVE_GREETING
  {
  }
}
