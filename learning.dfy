/**
 * The learning content attached to an interaction that carries code: at most
 * three Socratic questions and an untruncated list of learning objectives, both
 * chosen by fixed rules over the detected libraries, substrings of the code and
 * the estimated speedup.
 */
module Learning {
  import opened Text

  /**
   * The parts of the code analyser's report the rules read. A missing entry is
   * `None`; the rules then use the defaults the source reads it with.
   */
  datatype CodeAnalysis = CodeAnalysis(libraries: Option<seq<string>>, estimatedSpeedup: Option<real>)

  /** The detected libraries, or none when the analysis does not list any. */
  function LibrariesOf(analysis: CodeAnalysis): seq<string>
  {
    if analysis.libraries.Some? then analysis.libraries.value else []
  }

  /** The estimated speedup, or 1.0 when the analysis does not give one. */
  function SpeedupOf(analysis: CodeAnalysis): real
  {
    if analysis.estimatedSpeedup.Some? then analysis.estimatedSpeedup.value else 1.0
  }

  const NumpyQuestions := [
    "Looking at your NumPy operations, which ones do you think would benefit most from GPU acceleration?",
    "How might the memory access patterns in your code affect GPU performance?",
    "What would happen to performance if you increased the array sizes by 10x?"
  ]

  const PandasQuestions := [
    "Which pandas operations in your code are most computationally expensive?",
    "How would you modify this code to work with cuDF instead of pandas?",
    "What considerations should you make when transferring data between CPU and GPU?"
  ]

  const LoopQuestion := "Could you vectorize any of these loops to improve performance?"
  const FunctionQuestion := "How could you modify this function to accept both CPU and GPU arrays?"
  const HighSpeedupQuestion := "Your code has high parallelization potential. What makes it suitable for GPU acceleration?"
  const LowSpeedupQuestion := "This code may not benefit much from GPU acceleration. Can you identify why?"

  /** The code has a counted loop: it contains both "for " and "range(". */
  predicate HasRangeLoop(code: string)
  {
    Contains(code, "for ") && Contains(code, "range(")
  }

  /** The question about the speedup, if the estimate is above 5 or below 2. */
  function SpeedupQuestions(speedup: real): (r: seq<string>)
    ensures |r| == (if speedup > 5.0 || speedup < 2.0 then 1 else 0)
  {
    if speedup > 5.0 then [HighSpeedupQuestion]
    else if speedup < 2.0 then [LowSpeedupQuestion]
    else []
  }

  /** The questions of the library rules: numpy's, then pandas'. */
  function LibraryQuestions(libraries: seq<string>): seq<string>
  {
    (if "numpy" in libraries then NumpyQuestions else [])
    + (if "pandas" in libraries then PandasQuestions else [])
  }

  /** The questions of the code rules: the loop one, then the function one. */
  function CodeQuestions(code: string): seq<string>
  {
    (if HasRangeLoop(code) then [LoopQuestion] else [])
    + (if Contains(code, "def ") then [FunctionQuestion] else [])
  }

  /** Every question the rules produce, in rule order: numpy, pandas, loop, function, speedup. */
  function QuestionCandidates(analysis: CodeAnalysis, code: string): seq<string>
  {
    LibraryQuestions(LibrariesOf(analysis)) + CodeQuestions(code) + SpeedupQuestions(SpeedupOf(analysis))
  }

  function Min(a: nat, b: nat): nat
  {
    if a <= b then a else b
  }

  /** 1 when the condition holds, 0 otherwise. */
  function Count(b: bool): nat
  {
    if b then 1 else 0
  }

  /** The candidate list has one entry per rule that fires, three for each library rule. */
  lemma CandidateCount(analysis: CodeAnalysis, code: string)
    ensures |QuestionCandidates(analysis, code)|
         == 3 * Count("numpy" in LibrariesOf(analysis)) + 3 * Count("pandas" in LibrariesOf(analysis))
          + Count(HasRangeLoop(code)) + Count(Contains(code, "def "))
          + Count(SpeedupOf(analysis) > 5.0 || SpeedupOf(analysis) < 2.0)
  {
  }

  /** The questions shown: the first three candidates, or all of them when there are fewer. */
  function SocraticQuestions(analysis: CodeAnalysis, code: string): (r: seq<string>)
    ensures |r| <= 3
    ensures |r| == Min(3, |QuestionCandidates(analysis, code)|)
    ensures r == QuestionCandidates(analysis, code)[..|r|]
  {
    var candidates := QuestionCandidates(analysis, code);
    candidates[..Min(3, |candidates|)]
  }

  /**
   * `_generate_socratic_questions`, growing the list rule by rule and cutting it
   * to three. The user's question is accepted and not used, as in the source.
   */
  method GenerateSocraticQuestions(analysis: CodeAnalysis, userContext: string, code: string)
    returns (questions: seq<string>)
    ensures questions == SocraticQuestions(analysis, code)
  {
    questions := [];
    var libraries := LibrariesOf(analysis);
    var speedup := SpeedupOf(analysis);
    if "numpy" in libraries {
      questions := questions + NumpyQuestions;
    }
    if "pandas" in libraries {
      questions := questions + PandasQuestions;
    }
    assert questions == LibraryQuestions(libraries);
    ghost var fromLibraries := questions;
    if Contains(code, "for ") && Contains(code, "range(") {
      questions := questions + [LoopQuestion];
    }
    if Contains(code, "def ") {
      questions := questions + [FunctionQuestion];
    }
    assert questions == fromLibraries + CodeQuestions(code);
    ghost var fromCode := questions;
    if speedup > 5.0 {
      questions := questions + [HighSpeedupQuestion];
    } else if speedup < 2.0 {
      questions := questions + [LowSpeedupQuestion];
    }
    assert questions == fromCode + SpeedupQuestions(speedup);
    assert questions == QuestionCandidates(analysis, code);
    questions := questions[..Min(3, |questions|)];
  }

  /** With numpy detected, its three questions fill the list and no later rule is heard. */
  lemma NumpyQuestionsFirst(analysis: CodeAnalysis, code: string)
    requires "numpy" in LibrariesOf(analysis)
    ensures SocraticQuestions(analysis, code) == NumpyQuestions
  {
    var c := QuestionCandidates(analysis, code);
    assert c[..3] == NumpyQuestions;
  }

  /** With pandas but not numpy detected, the pandas questions fill the list. */
  lemma PandasQuestionsNext(analysis: CodeAnalysis, code: string)
    requires "numpy" !in LibrariesOf(analysis) && "pandas" in LibrariesOf(analysis)
    ensures SocraticQuestions(analysis, code) == PandasQuestions
  {
    var c := QuestionCandidates(analysis, code);
    assert c[..3] == PandasQuestions;
  }

  /**
   * Without numpy or pandas, every rule that fires is heard (at most three can),
   * in the order loop, function, speedup.
   */
  lemma NoLibraryQuestions(analysis: CodeAnalysis, code: string)
    requires "numpy" !in LibrariesOf(analysis) && "pandas" !in LibrariesOf(analysis)
    ensures SocraticQuestions(analysis, code)
         == (if HasRangeLoop(code) then [LoopQuestion] else [])
          + (if Contains(code, "def ") then [FunctionQuestion] else [])
          + SpeedupQuestions(SpeedupOf(analysis))
  {
    var c := QuestionCandidates(analysis, code);
    assert |c| <= 3;
  }

  /** A speedup between 2 and 5 inclusive adds no question; an estimate outside that range adds exactly one of the two. */
  lemma SpeedupQuestionBands(speedup: real)
    ensures 2.0 <= speedup <= 5.0 <==> SpeedupQuestions(speedup) == []
    ensures speedup > 5.0 <==> SpeedupQuestions(speedup) == [HighSpeedupQuestion]
    ensures speedup < 2.0 <==> SpeedupQuestions(speedup) == [LowSpeedupQuestion]
  {
    assert HighSpeedupQuestion != LowSpeedupQuestion by {
      assert |HighSpeedupQuestion| != |LowSpeedupQuestion|;
    }
  }

  const NumpyObjectives := [
    "Understand when to use CuPy vs NumPy for your specific operations",
    "Learn about GPU memory management for array operations",
    "Master efficient data transfer between CPU and GPU"
  ]

  const PandasObjectives := [
    "Compare cuDF vs pandas for your data processing workflow",
    "Understand GPU memory requirements for dataframe operations",
    "Learn efficient groupby and aggregation patterns on GPU"
  ]

  const LoopObjective := "Explore vectorization techniques to eliminate loops"
  const FunctionObjective := "Design functions that work efficiently with both CPU and GPU data"

  /** Every objective the rules produce, in rule order: numpy, pandas, loop, function. */
  function LearningObjectives(analysis: CodeAnalysis, code: string): seq<string>
  {
    var libraries := LibrariesOf(analysis);
    (if "numpy" in libraries then NumpyObjectives else [])
    + (if "pandas" in libraries then PandasObjectives else [])
    + (if Contains(code, "for ") then [LoopObjective] else [])
    + (if Contains(code, "def ") then [FunctionObjective] else [])
  }

  /** `_generate_learning_objectives`, growing the list rule by rule, never cut. */
  method GenerateLearningObjectives(analysis: CodeAnalysis, code: string) returns (objectives: seq<string>)
    ensures objectives == LearningObjectives(analysis, code)
  {
    objectives := [];
    var libraries := LibrariesOf(analysis);
    if "numpy" in libraries {
      objectives := objectives + NumpyObjectives;
    }
    if "pandas" in libraries {
      objectives := objectives + PandasObjectives;
    }
    if Contains(code, "for ") {
      objectives := objectives + [LoopObjective];
    }
    if Contains(code, "def ") {
      objectives := objectives + [FunctionObjective];
    }
  }

  /** The objectives are never truncated: their number is the sum over the rules that fire. */
  lemma ObjectivesLength(analysis: CodeAnalysis, code: string)
    ensures |LearningObjectives(analysis, code)|
         == 3 * Count("numpy" in LibrariesOf(analysis)) + 3 * Count("pandas" in LibrariesOf(analysis))
          + Count(Contains(code, "for ")) + Count(Contains(code, "def "))
  {
  }

  /**
   * Each rule that fires contributes all of its objectives; the loop rule needs
   * only "for ", unlike the loop question, which also needs "range(".
   */
  lemma ObjectivesComplete(analysis: CodeAnalysis, code: string)
    ensures "numpy" in LibrariesOf(analysis) ==> LearningObjectives(analysis, code)[..3] == NumpyObjectives
    ensures "pandas" in LibrariesOf(analysis) ==> forall o :: o in PandasObjectives ==> o in LearningObjectives(analysis, code)
    ensures Contains(code, "for ") ==> LoopObjective in LearningObjectives(analysis, code)
    ensures Contains(code, "def ") ==> FunctionObjective in LearningObjectives(analysis, code)
    ensures Contains(code, "def ") ==> LearningObjectives(analysis, code)[|LearningObjectives(analysis, code)| - 1] == FunctionObjective
  {
  }
}
