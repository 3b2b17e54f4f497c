/**
 * Prompt composition: the query sent to the answering service for a
 * `(question, code)` pair, the user message recorded by the chat, and the
 * structured prompt of the single-shot code analysis.
 */
module Prompt {
  import opened Text

  /** The fenced code block every prompt embeds the user's code in. */
  function Fenced(code: string): string
  {
    "```python\n" + code + "\n```"
  }

  const BothHead := "Question: "
  const BothMiddle := "\n\nCode to analyze and optimize for GPU acceleration:\n"
  const BothTail := "\n\nPlease analyze this code and provide:\n"
    + "1. GPU optimization suggestions\n"
    + "2. Specific RAPIDS library recommendations (CuPy, cuDF, cuML)\n"
    + "3. Expected performance improvements\n"
    + "4. Code examples showing the optimized version\n\n"
    + "Focus on practical GPU acceleration techniques using NVIDIA Rapids libraries."

  const CodeOnlyHead := "Please analyze the following Python code for GPU acceleration opportunities:\n\n"
  const CodeOnlyTail := "\n\nProvide:\n"
    + "1. Analysis of current code and GPU acceleration potential\n"
    + "2. Optimized version using NVIDIA Rapids libraries (CuPy, cuDF, cuML)\n"
    + "3. Expected performance improvements\n"
    + "4. Best practices for GPU optimization\n\n"
    + "Focus on practical GPU acceleration techniques."

  /**
   * The query `process_user_input` hands to the answering service. It is only
   * sent when the question or the code is non-empty; an empty code leaves the
   * question untouched.
   */
  function ComposeQuery(question: string, code: string): (r: string)
    ensures code == "" ==> r == question
    ensures code != "" && question != "" ==> StartsWith(r, BothHead + question)
    ensures code != "" && question == "" ==> StartsWith(r, CodeOnlyHead)
  {
    if code != "" && question != "" then
      BothHead + question + BothMiddle + Fenced(code) + BothTail
    else if code != "" then
      CodeOnlyHead + Fenced(code) + CodeOnlyTail
    else
      question
  }

  /** With code present, the query holds the code verbatim inside a python fence. */
  lemma QueryEmbedsCode(question: string, code: string)
    requires code != ""
    ensures Contains(ComposeQuery(question, code), Fenced(code))
  {
    if question != "" {
      ContainsInfix(BothHead + question + BothMiddle, Fenced(code), BothTail);
    } else {
      ContainsInfix(CodeOnlyHead, Fenced(code), CodeOnlyTail);
    }
  }

  /** With both present, the query also holds "Question: " followed by the question. */
  lemma QueryEmbedsQuestion(question: string, code: string)
    requires code != "" && question != ""
    ensures Contains(ComposeQuery(question, code), BothHead + question)
  {
    PrefixContained(ComposeQuery(question, code), BothHead + question);
  }

  const DefaultChatRequest := "Please analyze this code for GPU optimization opportunities."

  /**
   * The user message `chat_interface` records: the message, or a fixed request
   * when it is blank, followed by the code in a python fence when the code is
   * not blank.
   */
  function ChatUserContent(message: string, code: string): (r: string)
    ensures Strip(message) != "" ==> StartsWith(r, message)
    ensures Strip(message) == "" ==> StartsWith(r, DefaultChatRequest)
  {
    var head := if Strip(message) != "" then message else DefaultChatRequest;
    if Strip(code) != "" then head + "\n\nCode to analyze:\n" + Fenced(code) else head
  }

  /** A non-blank code ends the chat message, fenced; a blank one is not mentioned. */
  lemma ChatContentEndsWithCode(message: string, code: string)
    ensures Strip(code) != "" ==> Contains(ChatUserContent(message, code), Fenced(code))
    ensures Strip(code) != "" ==>
      var r := ChatUserContent(message, code);
      |Fenced(code)| <= |r| && r[|r| - |Fenced(code)|..] == Fenced(code)
    ensures Strip(code) == "" ==> ChatUserContent(message, code) == message || ChatUserContent(message, code) == DefaultChatRequest
  {
    if Strip(code) != "" {
      var head := if Strip(message) != "" then message else DefaultChatRequest;
      ContainsInfix(head + "\n\nCode to analyze:\n", Fenced(code), "");
      assert head + "\n\nCode to analyze:\n" + Fenced(code) + "" == ChatUserContent(message, code);
    }
  }

  const AnalysisHead := "You are GPU Mentor, an expert in NVIDIA Rapids GPU acceleration. "
    + "Analyze the following Python code and provide GPU optimization recommendations.\n\n"
    + "**Code to Analyze:**\n"

  const AnalysisTail := "\n\n**Instructions:**\n"
    + "Please provide your response in exactly this format:\n\n"
    + "## 🔍 AI Analysis & Recommendations\n\n"
    + "[Provide detailed analysis here including:\n"
    + "- What the code does and its current approach\n"
    + "- Libraries detected and their GPU acceleration potential\n"
    + "- Specific optimization opportunities\n"
    + "- Expected performance improvements\n"
    + "- Memory management considerations\n"
    + "- Best practices for GPU optimization]\n\n"
    + "## 🚀 GPU-Optimized Code\n\n"
    + "```python\n"
    + "[Provide the complete GPU-optimized version of the code here using:\n"
    + "- CuPy instead of NumPy\n"
    + "- cuDF instead of Pandas  \n"
    + "- cuML instead of scikit-learn\n"
    + "- Include proper imports and memory management\n"
    + "- Add comments explaining the optimizations]\n"
    + "```\n\n"
    + "## 💡 Optimization Insights\n\n"
    + "[Explain the specific changes made:\n"
    + "- Why each optimization was chosen\n"
    + "- How the GPU libraries work differently\n"
    + "- Performance implications\n"
    + "- When to use vs not use GPU acceleration\n"
    + "- Additional tips for scaling]\n\n"
    + "Focus on practical, working code that demonstrates clear GPU acceleration benefits."

  /** The structured prompt of the single-shot analysis, which asks for the section headers the parser splits on. */
  function AnalysisPrompt(code: string): (r: string)
    ensures Contains(r, Fenced(code))
  {
    ContainsInfix(AnalysisHead, Fenced(code), AnalysisTail);
    AnalysisHead + Fenced(code) + AnalysisTail
  }
}
