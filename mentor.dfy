/**
 * The `GPUMentor` object: it answers a `(question, code)` pair by consulting the
 * answering service and, when code is present, the code analyser; it records each
 * fully answered interaction in its conversation history; its chat entry point
 * appends a user/assistant message pair to the caller's chat history.
 */
module Mentor {
  import opened Text
  import opened Prompt
  import opened ResponseParser
  import opened Learning

  /** What the safe executor reports; the model keeps it as an opaque record. */
  datatype CodeOutput = CodeOutput(status: string, stdout: string)

  /** One interaction, with the fields the response record of `process_user_input` carries. */
  datatype Interaction = Interaction(
    timestamp: string,
    question: string,
    code: string,
    textResponse: string,
    codeAnalysis: Option<CodeAnalysis>,
    optimizedCode: string,
    codeOutput: Option<CodeOutput>,
    socraticQuestions: seq<string>,
    learningObjectives: seq<string>)

  /**
   * The collaborators: the answering service (given the query and whether to use
   * the conversation context) and the three operations of the code optimiser.
   */
  datatype Services = Services(
    query: (string, bool) -> Outcome<string>,
    analyzeCode: string -> Outcome<CodeAnalysis>,
    suggestOptimizations: string -> Outcome<string>,
    executeCodeSafely: string -> Outcome<CodeOutput>)

  const ProcessingError := "Error processing request: "

  /** The record an interaction starts from, before any collaborator is consulted. */
  function Fresh(timestamp: string, question: string, code: string): Interaction
  {
    Interaction(timestamp, question, code, "", None, "", None, [], [])
  }

  /** How far an interaction got: still running, or stopped by a collaborator that raised. */
  datatype Progress = Running(record: Interaction) | Stopped(record: Interaction, message: string)

  /** Consulting the answering service, when the question or the code is non-empty. */
  function QueryStep(r: Interaction, useContext: bool, services: Services): Progress
  {
    if r.question != "" || r.code != "" then
      match services.query(ComposeQuery(r.question, r.code), useContext)
      case Raised(m) => Stopped(r, m)
      case Returned(t) => Running(r.(textResponse := t))
    else Running(r)
  }

  /** Analysing, optimising and executing non-empty code, then attaching the learning content. */
  function CodeStep(p: Progress, services: Services): Progress
  {
    if p.Stopped? || p.record.code == "" then p
    else
      var r := p.record;
      match services.analyzeCode(r.code)
      case Raised(m) => Stopped(r, m)
      case Returned(a) =>
        var r1 := r.(codeAnalysis := Some(a));
        match services.suggestOptimizations(r.code)
        case Raised(m) => Stopped(r1, m)
        case Returned(o) =>
          var r2 := r1.(optimizedCode := o);
          match services.executeCodeSafely(r.code)
          case Raised(m) => Stopped(r2, m)
          case Returned(x) =>
            Running(r2.(codeOutput := Some(x),
                        socraticQuestions := SocraticQuestions(a, r.code),
                        learningObjectives := LearningObjectives(a, r.code)))
  }

  /**
   * The response `process_user_input` returns, and whether it is recorded: an
   * interaction that a collaborator interrupted keeps what it had, has the error
   * text as its response, and is not recorded.
   */
  function Respond(question: string, code: string, useContext: bool, services: Services, timestamp: string)
    : (result: (Interaction, bool))
  {
    match CodeStep(QueryStep(Fresh(timestamp, question, code), useContext, services), services)
    case Running(r) => (r, true)
    case Stopped(r, m) => (r.(textResponse := ProcessingError + m), false)
  }

  /** No collaborator that the interaction consults raises. */
  predicate NoneRaised(question: string, code: string, useContext: bool, services: Services)
  {
    && (question != "" || code != "" ==> services.query(ComposeQuery(question, code), useContext).Returned?)
    && (code != "" ==>
          && services.analyzeCode(code).Returned?
          && services.suggestOptimizations(code).Returned?
          && services.executeCodeSafely(code).Returned?)
  }

  /** An interaction is recorded exactly when no collaborator raised; otherwise its response names the error. */
  lemma RecordedIffNoneRaised(question: string, code: string, useContext: bool, services: Services, timestamp: string)
    ensures Respond(question, code, useContext, services, timestamp).1 <==> NoneRaised(question, code, useContext, services)
    ensures !Respond(question, code, useContext, services, timestamp).1 ==>
      StartsWith(Respond(question, code, useContext, services, timestamp).0.textResponse, ProcessingError)
  {
    var r := Respond(question, code, useContext, services, timestamp).0;
    if !Respond(question, code, useContext, services, timestamp).1 {
      var m := r.textResponse[|ProcessingError|..];
      assert r.textResponse == ProcessingError + m;
    }
  }

  /** Every response echoes its timestamp and inputs. */
  lemma RespondEchoesInputs(question: string, code: string, useContext: bool, services: Services, timestamp: string)
    ensures var r := Respond(question, code, useContext, services, timestamp).0;
      r.timestamp == timestamp && r.question == question && r.code == code
  {
  }

  /** A question without code is sent unchanged and nothing about code is filled in. */
  lemma QuestionOnly(question: string, useContext: bool, services: Services, timestamp: string)
    requires question != ""
    ensures var (r, recorded) := Respond(question, "", useContext, services, timestamp);
      && r.codeAnalysis.None? && r.optimizedCode == "" && r.codeOutput.None?
      && r.socraticQuestions == [] && r.learningObjectives == []
      && (recorded <==> services.query(question, useContext).Returned?)
      && (recorded ==> r.textResponse == services.query(question, useContext).value)
  {
  }

  /** Empty question and empty code consult nobody, yet the empty interaction is recorded. */
  lemma EmptyInputRecorded(useContext: bool, services: Services, timestamp: string)
    ensures Respond("", "", useContext, services, timestamp) == (Fresh(timestamp, "", ""), true)
  {
  }

  /**
   * A recorded interaction with code carries the analysis, the optimised code, the
   * execution output and the learning content derived from that analysis.
   */
  lemma RecordedWithCode(question: string, code: string, useContext: bool, services: Services, timestamp: string)
    requires code != ""
    requires Respond(question, code, useContext, services, timestamp).1
    ensures var r := Respond(question, code, useContext, services, timestamp).0;
      var a := services.analyzeCode(code).value;
      && r.textResponse == services.query(ComposeQuery(question, code), useContext).value
      && r.codeAnalysis == Some(a)
      && r.optimizedCode == services.suggestOptimizations(code).value
      && r.codeOutput == Some(services.executeCodeSafely(code).value)
      && r.socraticQuestions == SocraticQuestions(a, code) && |r.socraticQuestions| <= 3
      && r.learningObjectives == LearningObjectives(a, code)
  {
    RecordedIffNoneRaised(question, code, useContext, services, timestamp);
  }

  /** A message of the chat history. */
  datatype ChatMessage = ChatMessage(role: string, content: string)

  /** The caller's chat history, which the chat entry point extends in place. */
  class ChatHistory {
    var messages: seq<ChatMessage>

    constructor(messages: seq<ChatMessage>)
      ensures this.messages == messages
    {
      this.messages := messages;
    }
  }

  /**
   * The messages one chat turn adds: none when message and code are both blank,
   * otherwise the user's message and then the assistant's formatted answer.
   */
  function ChatTurn(message: string, code: string, services: Services, timestamp: string,
                    formatChat: Interaction -> string): (turn: seq<ChatMessage>)
  {
    if Strip(message) == "" && Strip(code) == "" then []
    else [ChatMessage("user", ChatUserContent(message, code)),
          ChatMessage("assistant", formatChat(Respond(message, code, true, services, timestamp).0))]
  }

  /** A chat turn adds nothing or exactly a user message followed by an assistant message. */
  lemma ChatTurnShape(message: string, code: string, services: Services, timestamp: string,
                      formatChat: Interaction -> string)
    ensures var turn := ChatTurn(message, code, services, timestamp, formatChat);
      && (turn == [] <==> Strip(message) == "" && Strip(code) == "")
      && (turn != [] ==> |turn| == 2 && turn[0].role == "user" && turn[1].role == "assistant")
      && (turn != [] && Strip(code) != "" ==> Contains(turn[0].content, Fenced(code)))
  {
    if Strip(message) != "" || Strip(code) != "" {
      ChatContentEndsWithCode(message, code);
    }
  }

  /** The stand-in for the answering agent's conversation memory; only the clear requests it receives are modelled. */
  class RagAgent {
    var clearRequests: nat

    constructor()
      ensures clearRequests == 0
    {
      clearRequests := 0;
    }

    method ClearConversationMemory()
      modifies this
      ensures clearRequests == old(clearRequests) + 1
    {
      clearRequests := clearRequests + 1;
    }
  }

  class GPUMentor {
    const ragAgent: RagAgent
    var conversationHistory: seq<Interaction>
    var executionResults: seq<CodeOutput>

    constructor(ragAgent: RagAgent)
      ensures this.ragAgent == ragAgent
      ensures conversationHistory == [] && executionResults == []
    {
      this.ragAgent := ragAgent;
      conversationHistory := [];
      executionResults := [];
    }

    /** Clearing asks the agent to forget; the mentor's own history is kept. */
    method ClearConversationMemory()
      modifies ragAgent
      ensures ragAgent.clearRequests == old(ragAgent.clearRequests) + 1
      ensures conversationHistory == old(conversationHistory)
    {
      ragAgent.ClearConversationMemory();
    }

    /**
     * `process_user_input`: the response is `Respond`'s, and the history grows by
     * that response exactly when it is recorded.
     */
    method ProcessUserInput(question: string, code: string, useContext: bool, services: Services, timestamp: string)
      returns (response: Interaction)
      modifies this
      ensures response == Respond(question, code, useContext, services, timestamp).0
      ensures conversationHistory == old(conversationHistory)
        + (if Respond(question, code, useContext, services, timestamp).1 then [response] else [])
      ensures executionResults == old(executionResults)
    {
      response := Fresh(timestamp, question, code);
      if question != "" || code != "" {
        var answer := services.query(ComposeQuery(question, code), useContext);
        if answer.Raised? {
          response := response.(textResponse := ProcessingError + answer.message);
          return;
        }
        response := response.(textResponse := answer.value);
      }
      if code != "" {
        var analysis := services.analyzeCode(code);
        if analysis.Raised? {
          response := response.(textResponse := ProcessingError + analysis.message);
          return;
        }
        response := response.(codeAnalysis := Some(analysis.value));
        var optimized := services.suggestOptimizations(code);
        if optimized.Raised? {
          response := response.(textResponse := ProcessingError + optimized.message);
          return;
        }
        response := response.(optimizedCode := optimized.value);
        var execution := services.executeCodeSafely(code);
        if execution.Raised? {
          response := response.(textResponse := ProcessingError + execution.message);
          return;
        }
        response := response.(codeOutput := Some(execution.value));
        var questions := GenerateSocraticQuestions(analysis.value, question, code);
        var objectives := GenerateLearningObjectives(analysis.value, code);
        response := response.(socraticQuestions := questions, learningObjectives := objectives);
      }
      conversationHistory := conversationHistory + [response];
    }

    /**
     * `chat_interface`: a blank turn changes nothing; otherwise the interaction is
     * processed with the conversation context and the turn's two messages are
     * appended to the caller's history. Both input boxes come back empty.
     */
    method ChatInterface(message: string, code: string, history: ChatHistory, services: Services,
                         timestamp: string, formatChat: Interaction -> string)
      returns (messageBox: string, codeBox: string)
      modifies this, history
      ensures messageBox == "" && codeBox == ""
      ensures history.messages == old(history.messages) + ChatTurn(message, code, services, timestamp, formatChat)
      ensures Strip(message) == "" && Strip(code) == "" ==> conversationHistory == old(conversationHistory)
      ensures Strip(message) != "" || Strip(code) != "" ==>
        var (response, recorded) := Respond(message, code, true, services, timestamp);
        conversationHistory == old(conversationHistory) + (if recorded then [response] else [])
      ensures executionResults == old(executionResults)
    {
      if Strip(message) == "" && Strip(code) == "" {
        return "", "";
      }
      var userContent := ChatUserContent(message, code);
      var response := ProcessUserInput(message, code, true, services, timestamp);
      var chatResponse := formatChat(response);
      history.messages := history.messages + [ChatMessage("user", userContent), ChatMessage("assistant", chatResponse)];
      return "", "";
    }
  }

  const NoCodeToAnalyze := "No code provided for analysis."
  const NoModelResponse := "No response received from the AI model. Please check the model connection."
  const AnalysisError := "Error analyzing code: "

  /**
   * The result of `analyze_code_only` once the code-analysis service has answered
   * (or raised) on the analysis prompt: a missing or blank answer is reported as
   * such, any other answer is parsed.
   */
  function AnswerToResult(answer: Outcome<Option<string>>): (r: (string, string))
    ensures answer.Raised? ==> r == (AnalysisError + answer.message, "")
    ensures answer.Returned? && (answer.value.None? || Strip(answer.value.value) == "") ==> r == (NoModelResponse, "")
    ensures answer.Returned? && answer.value.Some? && Strip(answer.value.value) != "" ==>
      r.0 == Parse(answer.value.value).analysis && r.1 == Parse(answer.value.value).optimizedCode
  {
    match answer
    case Raised(m) => (AnalysisError + m, "")
    case Returned(text) =>
      if text.None? || Strip(text.value) == "" then (NoModelResponse, "")
      else
        var parsed := Parse(text.value);
        (parsed.analysis, parsed.optimizedCode)
  }

  /**
   * `analyze_code_only`: blank code is refused without consulting the service;
   * otherwise the service is asked with the analysis prompt and its answer decides.
   */
  function AnalyzeCodeOnly(code: string, queryCodeAnalysis: string -> Outcome<Option<string>>): (r: (string, string))
    ensures Strip(code) == "" ==> r == (NoCodeToAnalyze, "")
    ensures Strip(code) != "" ==> r == AnswerToResult(queryCodeAnalysis(AnalysisPrompt(code)))
  {
    if Strip(code) == "" then (NoCodeToAnalyze, "")
    else AnswerToResult(queryCodeAnalysis(AnalysisPrompt(code)))
  }

  /** Code comes back only from an answer that holds the optimized-code header. */
  lemma CodeOnlyFromHeader(answer: Outcome<Option<string>>)
    ensures AnswerToResult(answer).1 != "" ==>
      answer.Returned? && answer.value.Some? && Contains(answer.value.value, CodeHeader)
  {
    if answer.Returned? && answer.value.Some? && Strip(answer.value.value) != "" {
      var t := answer.value.value;
      if !Contains(t, CodeHeader) {
        assert Parse(t).optimizedCode == "";
      }
    }
  }
}
