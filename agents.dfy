/** The four agents of the orchestrator package: each is built from a job id
    and a file path (the metadata agent also from the file type), and its
    `process` answers with fixed results; the metadata agent's results also
    carry a language model's answer to a prompt naming the file. */
module Agents {
  import opened Wrappers
  import opened Dicts

  datatype AgentClass = VideoAgent | AudioAgent | MetadataAgent | StoryboardAgent

  /** An agent object; `fileType` is set only for the metadata agent. */
  datatype AgentInstance = AgentInstance(cls: AgentClass, jobId: string, filePath: string, fileType: Option<string>)

  /** The language model run_llm calls: its answer to a prompt. */
  type Llm = string -> string

  /** Calling an agent class with the keyword arguments given: the metadata
      agent needs `file_type`, and the other three do not accept it. */
  function New(cls: AgentClass, jobId: string, filePath: string, fileType: Option<string>): (r: Result<AgentInstance, string>)
    ensures r.Ok? <==> (cls == MetadataAgent <==> fileType.Some?)
    ensures r.Ok? ==> r.value == AgentInstance(cls, jobId, filePath, fileType)
  {
    if cls == MetadataAgent && fileType.None? then Err("TypeError: missing argument 'file_type'")
    else if cls != MetadataAgent && fileType.Some? then Err("TypeError: unexpected keyword argument 'file_type'")
    else Ok(AgentInstance(cls, jobId, filePath, fileType))
  }

  const PromptTail: string := "'. " + "Include tags, objects, sentiment, " + "and a brief summary."

  /** The metadata agent's prompt for a file. */
  function Prompt(fileType: string, filePath: string): string {
    "Extract metadata from a " + (fileType + (" file named '" + (filePath + PromptTail)))
  }

  /** `process` of each agent. */
  function Process(a: AgentInstance, llm: Llm): Dict {
    match a.cls
    case VideoAgent =>
      [("resolution", JStr("4K")), ("noise_reduction", JStr("85%")), ("color_correction", JStr("Applied")),
       ("scenes_detected", JNum(12)), ("frames_processed", JNum(1440))]
    case AudioAgent =>
      [("noise_reduction", JStr("92%")), ("quality", JStr("48kHz stereo")),
       ("speech_to_text", JStr("Transcription complete")), ("music_generated", JBool(true))]
    case MetadataAgent =>
      [("llm_summary", JStr(llm(Prompt(if a.fileType.Some? then a.fileType.value else "None", a.filePath)))),
       ("tags", JArr([JStr("action"), JStr("outdoor"), JStr("daylight")])),
       ("objects_detected", JNum(15)), ("sentiment", JStr("Positive"))]
    case StoryboardAgent =>
      [("key_frames", JNum(24)), ("scenes", JNum(12)), ("transitions", JNum(11)), ("timeline_generated", JBool(true))]
  }

  lemma SliceAfter(a: string, x: string, rest: string)
    ensures (a + (x + rest))[|a|..|a| + |x|] == x
  {
    assert (a + (x + rest))[|a|..] == x + rest;
  }

  /** The prompt names the file type and then the file path. */
  lemma PromptNamesFile(fileType: string, filePath: string)
    ensures var p := Prompt(fileType, filePath);
      && p[24..24 + |fileType|] == fileType
      && p[24 + |fileType| + 13..24 + |fileType| + 13 + |filePath|] == filePath
  {
    var a := "Extract metadata from a ";
    var b := " file named '";
    SliceAfter(a, fileType, b + (filePath + PromptTail));
    SliceAfter(a + fileType + b, filePath, PromptTail);
    assert a + (fileType + (b + (filePath + PromptTail))) == (a + fileType + b) + (filePath + PromptTail);
  }

  /** Only the metadata agent's results depend on what it was built from,
      and then only through the model's answer to the prompt. */
  lemma ProcessIgnoresArguments(a: AgentInstance, b: AgentInstance, llm: Llm, llm': Llm)
    requires a.cls == b.cls && a.cls != MetadataAgent
    ensures Process(a, llm) == Process(b, llm')
  { }

  /** The video agent reports a resolution and a positive number of frames. */
  lemma VideoResults(a: AgentInstance, llm: Llm)
    requires a.cls == VideoAgent
    ensures Get(Process(a, llm), "resolution") == Some(JStr("4K"))
    ensures Get(Process(a, llm), "frames_processed") == Some(JNum(1440))
  {
    GetAt(Process(a, llm), 4);
  }

  /** The audio agent reports a transcription and a quality that starts
      with "48kHz". */
  lemma AudioResults(a: AgentInstance, llm: Llm)
    requires a.cls == AudioAgent
    ensures Get(Process(a, llm), "speech_to_text").Some?
    ensures var q := Get(Process(a, llm), "quality");
      q.Some? && q.value.JStr? && |q.value.s| >= 5 && q.value.s[..5] == "48kHz"
  {
    GetAt(Process(a, llm), 2);
  }

  /** The metadata agent reports the model's summary and a list of tags. */
  lemma MetadataResults(a: AgentInstance, llm: Llm, fileType: string)
    requires a.cls == MetadataAgent && a.fileType == Some(fileType)
    ensures Get(Process(a, llm), "llm_summary") == Some(JStr(llm(Prompt(fileType, a.filePath))))
    ensures var t := Get(Process(a, llm), "tags"); t.Some? && t.value.JArr?
  { }

  /** The storyboard agent reports a generated timeline and a positive
      number of key frames. */
  lemma StoryboardResults(a: AgentInstance, llm: Llm)
    requires a.cls == StoryboardAgent
    ensures Get(Process(a, llm), "timeline_generated") == Some(JBool(true))
    ensures var k := Get(Process(a, llm), "key_frames"); k.Some? && k.value.JNum? && k.value.n > 0
  {
    GetAt(Process(a, llm), 3);
  }
}
