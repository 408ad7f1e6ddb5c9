/** The configuration forms of the chat pages: each form's submit strips its fields, checks
    them in a fixed order and either reports the first problem as an error toast or builds the
    new configuration section, which the page then saves with
    `AppConfigState.update_config_section` under its section name. The checks are pure; the
    functions below return the section to save or the message of the error toast.

    Python's `float()` on the temperature field is the parameter `parseFloat`; `int()` on the
    chunk count is `ParseInt`. */
module ConfigForms {
  import opened Wrappers
  import opened PyText

  /** A form submit: the error toast's message, or the section to save. */
  datatype Validated<T> = Accepted(value: T) | Rejected(message: string)

  /** `form_data.get(key, '').strip()`. */
  function Field(form: map<string, string>, key: string): string
  {
    Strip(if key in form then form[key] else "")
  }

  const EMPTY_PROMPT := "System prompt cannot be empty"
  const INVALID_MODE := "Invalid mode selected"
  const EMPTY_MODEL := "Model cannot be empty"
  const TEMPERATURE_RANGE := "Temperature must be between 0.0 and 2.0"
  const TEMPERATURE_NOT_NUMBER := "Temperature must be a valid number"
  const CHUNKS_REQUIRED := "Chunk count is required for relevant chunks mode"
  const CHUNKS_RANGE := "Chunk count must be between 1 and 100"
  const CHUNKS_NOT_NUMBER := "Chunk count must be a valid number"

  /** The section names under which the pages save their configuration. */
  const AI_EXPERT_SECTION := "ai_expert_page"
  const AI_TABLE_SECTION := "ai_table_page"
  const TABLE_AGENT_SECTION := "ai_table_table_agent_page"
  const PLOT_FILE_SECTION := "ai_table_plot_file_page"

  function MissingPlaceholder(placeholder: string): string
  {
    "System prompt must include the prompt file placeholder: " + placeholder
  }

  /** The temperature field: a number from 0.0 to 2.0. */
  function ValidateTemperature(text: string, parseFloat: string -> Option<real>): (r: Validated<real>)
    ensures r.Accepted? <==> parseFloat(text).Some? && 0.0 <= parseFloat(text).value <= 2.0
    ensures r.Accepted? ==> r.value == parseFloat(text).value
    ensures parseFloat(text).None? ==> r == Rejected(TEMPERATURE_NOT_NUMBER)
    ensures r.Rejected? && parseFloat(text).Some? ==> r == Rejected(TEMPERATURE_RANGE)
  {
    match parseFloat(text)
    case None => Rejected(TEMPERATURE_NOT_NUMBER)
    case Some(t) => if t < 0.0 || t > 2.0 then Rejected(TEMPERATURE_RANGE) else Accepted(t)
  }

  /** A chunk count that was typed in: an integer from 1 to 100. */
  function ValidateChunkCount(text: string): (r: Validated<int>)
    ensures r.Accepted? <==> ParseInt(text).Some? && 1 <= ParseInt(text).value <= 100
    ensures r.Accepted? ==> r.value == ParseInt(text).value
    ensures r.Rejected? ==> r.message == (if ParseInt(text).None? then CHUNKS_NOT_NUMBER else CHUNKS_RANGE)
  {
    match ParseInt(text)
    case None => Rejected(CHUNKS_NOT_NUMBER)
    case Some(n) => if n < 1 || n > 100 then Rejected(CHUNKS_RANGE) else Accepted(n)
  }

  // ---------------------------------------------------------------- AI Expert (reflex)

  const EXPERT_MODES: seq<string> := ["full_text_chunk", "relevant_chunks", "full_file"]

  /** `AiExpertConfig` of the `reflex/ai_expert` page. */
  datatype ExpertConfig = ExpertConfig(placeholder: string, systemPrompt: string, mode: string,
                                       model: string, temperature: real, maxChunks: int)

  /** The chunk count of the expert form: required in `relevant_chunks` mode, checked when
      given in the other modes, 5 when not given. */
  function ExpertChunkCount(mode: string, text: string): (r: Validated<int>)
    ensures mode == "relevant_chunks" && text == "" ==> r == Rejected(CHUNKS_REQUIRED)
    ensures mode != "relevant_chunks" && text == "" ==> r == Accepted(5)
    ensures text != "" ==> r == ValidateChunkCount(text)
    ensures r.Accepted? ==> 1 <= r.value <= 100
  {
    if text != "" then ValidateChunkCount(text)
    else if mode == "relevant_chunks" then Rejected(CHUNKS_REQUIRED)
    else Accepted(5)
  }

  /** When the expert form's stripped fields are accepted. */
  predicate ExpertFieldsOk(prompt: string, mode: string, model: string, temperature: string, chunks: string,
                           placeholder: string, parseFloat: string -> Option<real>)
  {
    && prompt != ""
    && mode in EXPERT_MODES
    && model != ""
    && ValidateTemperature(temperature, parseFloat).Accepted?
    && ExpertChunkCount(mode, chunks).Accepted?
    && Contains(prompt, placeholder)
  }

  /** The expert form's checks on its stripped fields, in the source's order (prompt, mode,
      model, temperature, chunk count, placeholder): the first failing one gives the message. */
  function CheckExpertFields(prompt: string, mode: string, model: string, temperature: string, chunks: string,
                             placeholder: string, parseFloat: string -> Option<real>): (r: Validated<ExpertConfig>)
    ensures r.Accepted? <==> ExpertFieldsOk(prompt, mode, model, temperature, chunks, placeholder, parseFloat)
    ensures prompt == "" ==> r == Rejected(EMPTY_PROMPT)
    ensures prompt != "" && mode !in EXPERT_MODES ==> r == Rejected(INVALID_MODE)
    ensures prompt != "" && mode in EXPERT_MODES && model == "" ==> r == Rejected(EMPTY_MODEL)
    ensures r.Accepted? ==>
              && r.value.placeholder == placeholder
              && r.value.systemPrompt == prompt && r.value.mode == mode && r.value.model == model
              && Contains(r.value.systemPrompt, r.value.placeholder)
              && 0.0 <= r.value.temperature <= 2.0
              && r.value.temperature == parseFloat(temperature).value
              && 1 <= r.value.maxChunks <= 100
              && (chunks == "" ==> r.value.maxChunks == 5)
              && (chunks != "" ==> Some(r.value.maxChunks) == ParseInt(chunks))
  {
    if prompt == "" then Rejected(EMPTY_PROMPT)
    else if mode == "" || mode !in EXPERT_MODES then Rejected(INVALID_MODE)
    else if model == "" then Rejected(EMPTY_MODEL)
    else
      match ValidateTemperature(temperature, parseFloat)
      case Rejected(m) => Rejected(m)
      case Accepted(t) =>
        match ExpertChunkCount(mode, chunks)
        case Rejected(m) => Rejected(m)
        case Accepted(n) =>
          if !Contains(prompt, placeholder) then Rejected(MissingPlaceholder(placeholder))
          else Accepted(ExpertConfig(placeholder, prompt, mode, model, t, n))
  }

  /** `handle_config_form_submit` of the `reflex/ai_expert` page: the form's fields are
      stripped and checked; the saved section keeps the current placeholder. */
  function SubmitExpertForm(form: map<string, string>, current: ExpertConfig, parseFloat: string -> Option<real>)
    : (r: Validated<ExpertConfig>)
    ensures r == CheckExpertFields(Field(form, "system_prompt"), Field(form, "mode"), Field(form, "model"),
                                   Field(form, "temperature"), Field(form, "max_chunks"), current.placeholder, parseFloat)
  {
    CheckExpertFields(Field(form, "system_prompt"), Field(form, "mode"), Field(form, "model"),
                      Field(form, "temperature"), Field(form, "max_chunks"), current.placeholder, parseFloat)
  }

  /** `show_max_chunk_config`. */
  predicate ShowMaxChunkConfig(mode: string)
  {
    mode == "relevant_chunks" || mode == "full_text_chunk"
  }

  /** Among the expert modes, the chunk-count field is hidden exactly in `full_file` mode. */
  lemma ChunkFieldHiddenOnlyForFullFile(mode: string)
    requires mode in EXPERT_MODES
    ensures ShowMaxChunkConfig(mode) <==> mode != "full_file"
  {
  }

  /** An accepted expert section submitted again, unchanged, is accepted again as the same
      section (when the number parser reads back the temperature and the form's fields carry
      no surrounding blanks). */
  lemma ExpertResubmit(form: map<string, string>, current: ExpertConfig, parseFloat: string -> Option<real>, again: map<string, string>)
    requires SubmitExpertForm(form, current, parseFloat).Accepted?
    requires Field(again, "system_prompt") == Field(form, "system_prompt")
    requires Field(again, "mode") == Field(form, "mode") && Field(again, "model") == Field(form, "model")
    requires Field(again, "temperature") == Field(form, "temperature")
    requires Field(again, "max_chunks") == Field(form, "max_chunks")
    ensures SubmitExpertForm(again, SubmitExpertForm(form, current, parseFloat).value, parseFloat) ==
            SubmitExpertForm(form, current, parseFloat)
  {
  }

  // ---------------------------------------------------------------- AI Expert (components)

  const SIMPLE_EXPERT_MODES: seq<string> := ["text_chunk", "full_file"]

  /** `AiExpertConfig` of the `components/app_config` page. */
  datatype SimpleExpertConfig = SimpleExpertConfig(placeholder: string, systemPrompt: string, mode: string)

  /** `handle_config_form_submit` of the `components/app_config` expert form: a non-empty
      prompt holding the placeholder and one of its two modes. */
  function SubmitSimpleExpertForm(form: map<string, string>, current: SimpleExpertConfig): (r: Validated<SimpleExpertConfig>)
    ensures r.Accepted? <==> Field(form, "system_prompt") != "" && Field(form, "mode") in SIMPLE_EXPERT_MODES &&
                             Contains(Field(form, "system_prompt"), current.placeholder)
    ensures Field(form, "system_prompt") == "" ==> r == Rejected(EMPTY_PROMPT)
    ensures Field(form, "system_prompt") != "" && Field(form, "mode") !in SIMPLE_EXPERT_MODES ==> r == Rejected(INVALID_MODE)
    ensures r.Accepted? ==> r.value == SimpleExpertConfig(current.placeholder, Field(form, "system_prompt"), Field(form, "mode"))
  {
    var prompt := Field(form, "system_prompt");
    var mode := Field(form, "mode");
    if prompt == "" then Rejected(EMPTY_PROMPT)
    else if mode == "" || mode !in SIMPLE_EXPERT_MODES then Rejected(INVALID_MODE)
    else if !Contains(prompt, current.placeholder) then Rejected(MissingPlaceholder(current.placeholder))
    else Accepted(SimpleExpertConfig(current.placeholder, prompt, mode))
  }

  // ---------------------------------------------------------------- AI Table pages

  /** `AiTableChatConfig` and `AiTablePlotFileChatConfig`: a prompt with its placeholder, a
      model and a temperature. */
  datatype PromptedConfig = PromptedConfig(placeholder: string, systemPrompt: string, model: string, temperature: real)

  /** `AiTableAgentChatConfig`. */
  datatype AgentConfig = AgentConfig(model: string, temperature: real)

  /** `validate_form` of the table agent page and `handle_config_validation` of the plot file
      page (both copies of each): a model and a temperature. */
  function ValidateModelForm(form: map<string, string>, parseFloat: string -> Option<real>): (r: Validated<AgentConfig>)
    ensures r.Accepted? <==> Field(form, "model") != "" && ValidateTemperature(Field(form, "temperature"), parseFloat).Accepted?
    ensures Field(form, "model") == "" ==> r == Rejected(EMPTY_MODEL)
    ensures Field(form, "model") != "" && r.Rejected? ==> r.message == ValidateTemperature(Field(form, "temperature"), parseFloat).message
    ensures r.Accepted? ==> r.value.model == Field(form, "model") && 0.0 <= r.value.temperature <= 2.0 &&
                            r.value.temperature == parseFloat(Field(form, "temperature")).value
  {
    var model := Field(form, "model");
    if model == "" then Rejected(EMPTY_MODEL)
    else
      match ValidateTemperature(Field(form, "temperature"), parseFloat)
      case Rejected(m) => Rejected(m)
      case Accepted(t) => Accepted(AgentConfig(model, t))
  }

  /** The table agent page saves only the model and the temperature it validated. */
  function SubmitAgentForm(form: map<string, string>, parseFloat: string -> Option<real>): (r: Validated<AgentConfig>)
    ensures r == ValidateModelForm(form, parseFloat)
  {
    ValidateModelForm(form, parseFloat)
  }

  /** The plot file page keeps the current prompt and placeholder, which its form cannot
      change, and saves the validated model and temperature; an error skips the save. */
  function SubmitPlotFileForm(form: map<string, string>, current: PromptedConfig, parseFloat: string -> Option<real>)
    : (r: Validated<PromptedConfig>)
    ensures r.Accepted? <==> ValidateModelForm(form, parseFloat).Accepted?
    ensures r.Rejected? ==> r == Rejected(ValidateModelForm(form, parseFloat).message)
    ensures r.Accepted? ==> r.value.placeholder == current.placeholder && r.value.systemPrompt == current.systemPrompt
    ensures r.Accepted? ==> r.value.model == Field(form, "model") && 0.0 <= r.value.temperature <= 2.0
    ensures r.Accepted? ==> parseFloat(Field(form, "temperature")).Some? &&
                            r.value.temperature == parseFloat(Field(form, "temperature")).value
  {
    match ValidateModelForm(form, parseFloat)
    case Rejected(m) => Rejected(m)
    case Accepted(c) => Accepted(PromptedConfig(current.placeholder, current.systemPrompt, c.model, c.temperature))
  }

  /** `handle_common_config_validation` plus `handle_config_form_submit` of the AI Table chat
      page: a non-empty prompt, a model, a temperature, then the current placeholder must
      occur in the prompt; the saved section keeps that placeholder. */
  function SubmitTableChatForm(form: map<string, string>, current: PromptedConfig, parseFloat: string -> Option<real>)
    : (r: Validated<PromptedConfig>)
    ensures r.Accepted? <==> Field(form, "system_prompt") != "" && ValidateModelForm(form, parseFloat).Accepted? &&
                             Contains(Field(form, "system_prompt"), current.placeholder)
    ensures Field(form, "system_prompt") == "" ==> r == Rejected(EMPTY_PROMPT)
    ensures Field(form, "system_prompt") != "" && Field(form, "model") == "" ==> r == Rejected(EMPTY_MODEL)
    ensures r.Accepted? ==> r.value == PromptedConfig(current.placeholder, Field(form, "system_prompt"), Field(form, "model"),
                                                      parseFloat(Field(form, "temperature")).value)
  {
    var prompt := Field(form, "system_prompt");
    if prompt == "" then Rejected(EMPTY_PROMPT)
    else
      match ValidateModelForm(form, parseFloat)
      case Rejected(m) => Rejected(m)
      case Accepted(c) =>
        if !Contains(prompt, current.placeholder) then Rejected(MissingPlaceholder(current.placeholder))
        else Accepted(PromptedConfig(current.placeholder, prompt, c.model, c.temperature))
  }
}
