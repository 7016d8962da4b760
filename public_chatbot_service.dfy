// The public website chatbot of app/services/public_chatbot_service.py and
// its two tables (app/db/models/public_chatbot.py).
//
// The embedding call, the knowledge-base search and the language model are
// parameters: `embed` answers None where the call raises, `rag` answers None
// where `get_rag_context` catches an exception, and `ai` answers the reply
// or the exception's message.

module PublicChatbotService {
  import opened Common
  import KnowledgeBaseService
  import Settings = Config

  // ----------------------------------------------------------------------
  // The configuration row
  // ----------------------------------------------------------------------

  /** `public_chatbot_config` */
  datatype Config = Config(
    name: String,
    welcomeMessage: String,
    systemPrompt: Option<String>,
    inputPlaceholder: String,
    headerSubtitle: Option<String>,
    isEnabled: bool,
    avatarUrl: Option<String>,
    useRag: bool,
    ragSimilarityThreshold: int,
    embedding: Option<seq<real>>,
    embeddingModel: Option<String>)

  const DefaultName: String := "Prompterly Assistant"
  const DefaultWelcome: String := "Hi! How can I help you today?"
  const DefaultPlaceholder: String := "What's on your mind?"
  const DefaultSubtitle: String := "Lorem ipsum dolor sit amet, consectetur adipiscing elit."
  const DefaultThresholdPercent: int := 70

  /** A value of the `data` dictionary handed to `update_config`. */
  datatype Value = Text(s: String) | Flag(b: bool) | Number(n: int) | Null

  const NameKey: String := "name"
  const WelcomeKey: String := "welcome_message"
  const PromptKey: String := "system_prompt"
  const PlaceholderKey: String := "input_placeholder"
  const SubtitleKey: String := "header_subtitle"
  const EnabledKey: String := "is_enabled"
  const AvatarKey: String := "avatar_url"
  const UseRagKey: String := "use_rag"
  const ThresholdKey: String := "rag_similarity_threshold"

  /** Fields whose empty text is dropped so that the column default applies. */
  const RequiredWithDefaults: set<String> := {NameKey, WelcomeKey, PlaceholderKey}
  /** Fields whose empty text becomes None. */
  const NullableFields: set<String> := {PromptKey, SubtitleKey, AvatarKey}

  const TextColumns: set<String> := {NameKey, WelcomeKey, PlaceholderKey}
  const OptTextColumns: set<String> := {PromptKey, SubtitleKey, AvatarKey}
  const FlagColumns: set<String> := {EnabledKey, UseRagKey}
  const NumberColumns: set<String> := {ThresholdKey}

  predicate IsColumn(k: String) {
    k in TextColumns || k in OptTextColumns || k in FlagColumns || k in NumberColumns
  }

  /** The value has the column's type; None only in a nullable column. */
  predicate Fits(k: String, v: Value) {
    match v
    case Text(_) => k in TextColumns || k in OptTextColumns
    case Flag(_) => k in FlagColumns
    case Number(_) => k in NumberColumns
    case Null => k in OptTextColumns
  }

  /** The filtering loop of `update_config`. */
  function FilterData(data: map<String, Value>): (r: map<String, Value>)
    ensures forall k :: k in r <==> k in data && !(k in RequiredWithDefaults && data[k] == Text(""))
    ensures forall k :: k in r && k in NullableFields && data[k] == Text("") ==> r[k] == Null
    ensures forall k :: k in r && !(k in NullableFields && data[k] == Text("")) ==> r[k] == data[k]
  {
    map k | k in data && !(k in RequiredWithDefaults && data[k] == Text("")) ::
      if k in NullableFields && data[k] == Text("") then Null else data[k]
  }

  /** After filtering, none of the six listed fields holds empty text, and
      filtering again changes nothing. */
  lemma FilterDataStable(data: map<String, Value>)
    ensures forall k :: k in FilterData(data) && (k in RequiredWithDefaults || k in NullableFields) ==>
              FilterData(data)[k] != Text("")
    ensures FilterData(FilterData(data)) == FilterData(data)
  {
    var f := FilterData(data);
    assert forall k :: k in RequiredWithDefaults ==> k !in NullableFields;
  }

  // The column updates of an existing row.

  function TextUpdate(prev: String, k: String, f: map<String, Value>): String {
    if k in f && f[k].Text? then f[k].s else prev
  }

  function FlagUpdate(prev: bool, k: String, f: map<String, Value>): bool {
    if k in f && f[k].Flag? then f[k].b else prev
  }

  function NumberUpdate(prev: int, k: String, f: map<String, Value>): int {
    if k in f && f[k].Number? then f[k].n else prev
  }

  /** As written: a None value is skipped, so a nullable column keeps its text. */
  function OptTextUpdateAsWritten(prev: Option<String>, k: String, f: map<String, Value>): Option<String> {
    if k in f && f[k].Text? then Some(f[k].s) else prev
  }

  /** As intended: the None that an empty text was turned into clears the column. */
  function OptTextUpdate(prev: Option<String>, k: String, f: map<String, Value>): Option<String> {
    if k in f && f[k].Text? then Some(f[k].s) else if k in f && f[k] == Null then None else prev
  }

  /** The update loop on an existing row as written: only non-None values
      of known columns are applied. */
  function ApplyAsWritten(c: Config, f: map<String, Value>): Config {
    c.(name := TextUpdate(c.name, NameKey, f),
       welcomeMessage := TextUpdate(c.welcomeMessage, WelcomeKey, f),
       systemPrompt := OptTextUpdateAsWritten(c.systemPrompt, PromptKey, f),
       inputPlaceholder := TextUpdate(c.inputPlaceholder, PlaceholderKey, f),
       headerSubtitle := OptTextUpdateAsWritten(c.headerSubtitle, SubtitleKey, f),
       isEnabled := FlagUpdate(c.isEnabled, EnabledKey, f),
       avatarUrl := OptTextUpdateAsWritten(c.avatarUrl, AvatarKey, f),
       useRag := FlagUpdate(c.useRag, UseRagKey, f),
       ragSimilarityThreshold := NumberUpdate(c.ragSimilarityThreshold, ThresholdKey, f))
  }

  /** The update loop as intended: an emptied nullable field is cleared. */
  function Apply(c: Config, f: map<String, Value>): (r: Config)
    ensures PromptKey in f && f[PromptKey] == Null ==> r.systemPrompt.None?
    ensures SubtitleKey in f && f[SubtitleKey] == Null ==> r.headerSubtitle.None?
    ensures AvatarKey in f && f[AvatarKey] == Null ==> r.avatarUrl.None?
    ensures (forall k :: k in f ==> f[k] != Null) ==> r == ApplyAsWritten(c, f)
    ensures r.embedding == c.embedding && r.embeddingModel == c.embeddingModel
  {
    c.(name := TextUpdate(c.name, NameKey, f),
       welcomeMessage := TextUpdate(c.welcomeMessage, WelcomeKey, f),
       systemPrompt := OptTextUpdate(c.systemPrompt, PromptKey, f),
       inputPlaceholder := TextUpdate(c.inputPlaceholder, PlaceholderKey, f),
       headerSubtitle := OptTextUpdate(c.headerSubtitle, SubtitleKey, f),
       isEnabled := FlagUpdate(c.isEnabled, EnabledKey, f),
       avatarUrl := OptTextUpdate(c.avatarUrl, AvatarKey, f),
       useRag := FlagUpdate(c.useRag, UseRagKey, f),
       ragSimilarityThreshold := NumberUpdate(c.ragSimilarityThreshold, ThresholdKey, f))
  }

  function TextInit(k: String, f: map<String, Value>, dflt: String): String {
    if k in f && f[k].Text? then f[k].s else dflt
  }

  function OptTextInit(k: String, f: map<String, Value>, dflt: Option<String>): Option<String> {
    if k in f && f[k].Text? then Some(f[k].s) else if k in f then None else dflt
  }

  /** `PublicChatbotConfig(**filtered_data)`: a key that names no column
      raises TypeError, and None in a non-null column fails the insert;
      omitted columns take their defaults, an explicit None included. */
  function Create(f: map<String, Value>): (r: Option<Config>)
    ensures r.Some? <==> forall k :: k in f ==> IsColumn(k) && Fits(k, f[k])
    ensures r.Some? ==> r.value.embedding.None? && r.value.embeddingModel.None?
    ensures r.Some? && NameKey !in f ==> r.value.name == DefaultName
    ensures r.Some? && EnabledKey !in f ==> r.value.isEnabled
  {
    if forall k :: k in f ==> IsColumn(k) && Fits(k, f[k]) then
      Some(Config(TextInit(NameKey, f, DefaultName), TextInit(WelcomeKey, f, DefaultWelcome),
                  OptTextInit(PromptKey, f, None), TextInit(PlaceholderKey, f, DefaultPlaceholder),
                  OptTextInit(SubtitleKey, f, Some(DefaultSubtitle)),
                  if EnabledKey in f && f[EnabledKey].Flag? then f[EnabledKey].b else true,
                  OptTextInit(AvatarKey, f, None),
                  if UseRagKey in f && f[UseRagKey].Flag? then f[UseRagKey].b else true,
                  if ThresholdKey in f && f[ThresholdKey].Number? then f[ThresholdKey].n else DefaultThresholdPercent,
                  None, None))
    else None
  }

  /** Python truthiness of a dictionary value. */
  predicate Truthy(v: Value) {
    match v
    case Text(s) => s != []
    case Flag(b) => b
    case Number(n) => n != 0
    case Null => false
  }

  /** `data.get('system_prompt') or config.system_prompt`, when it is text
      worth embedding; a non-text value makes the embedding call fail. */
  function PromptToEmbed(data: map<String, Value>, c: Config): (r: Option<String>)
    ensures r.Some? ==> r.value != []
  {
    if PromptKey in data && Truthy(data[PromptKey]) then
      (if data[PromptKey].Text? then Some(data[PromptKey].s) else None)
    else if c.systemPrompt.Some? && c.systemPrompt.value != [] then c.systemPrompt
    else None
  }

  /** The setting `update_config` reads for the model name. */
  const EmbeddingModelSetting: String := "EMBEDDING_MODEL"

  /** The embedding step as written: the vector is assigned, then reading
      `settings.EMBEDDING_MODEL` raises AttributeError (config.py declares
      only OPENAI_EMBEDDING_MODEL), which the `except` logs. The vector
      stays on the row and is committed; `embedding_model` keeps its old
      value. */
  function EmbedAsWritten(data: map<String, Value>, c: Config, embed: String -> Option<seq<real>>): (r: Config)
    ensures r.embeddingModel == c.embeddingModel
    ensures r.(embedding := c.embedding) == c
    ensures PromptToEmbed(data, c).Some? && embed(PromptToEmbed(data, c).value).Some? ==>
              r.embedding == embed(PromptToEmbed(data, c).value)
  {
    match PromptToEmbed(data, c)
    case None => c
    case Some(p) =>
      match embed(p)
      case None => c
      case Some(e) => c.(embedding := Some(e))
  }

  /** The embedding step as intended: the vector and the configured model
      name are stored together; a failed call is logged and leaves the row
      alone. */
  function Embed(data: map<String, Value>, c: Config, embed: String -> Option<seq<real>>, model: String): (r: Config)
    ensures PromptToEmbed(data, c).None? ==> r == c
    ensures r.(embedding := c.embedding, embeddingModel := c.embeddingModel) == c
    ensures r.embedding != c.embedding ==> r.embeddingModel == Some(model)
    ensures PromptToEmbed(data, c).Some? && embed(PromptToEmbed(data, c).value).Some? ==>
              r.embedding == embed(PromptToEmbed(data, c).value) && r.embeddingModel == Some(model)
  {
    match PromptToEmbed(data, c)
    case None => c
    case Some(p) =>
      match embed(p)
      case None => c
      case Some(e) => c.(embedding := Some(e), embeddingModel := Some(model))
  }

  /** As written, a successful embedding is stored without its model name:
      `EMBEDDING_MODEL` is not a declared setting, so the row's
      `embedding_model` stays as it was (None on a new row) while its vector
      changes. The intended step records the configured model. */
  lemma EmbeddingModelStaleAsWritten(data: map<String, Value>, c: Config, embed: String -> Option<seq<real>>,
                                     p: String, e: seq<real>)
    requires PromptToEmbed(data, c) == Some(p) && embed(p) == Some(e)
    ensures EmbeddingModelSetting !in Settings.OpenAiSettingNames
    ensures EmbedAsWritten(data, c, embed).embedding == Some(e)
    ensures EmbedAsWritten(data, c, embed).embeddingModel == c.embeddingModel
    ensures Embed(data, c, embed, Settings.DefaultEmbeddingModel).embeddingModel == Some(Settings.DefaultEmbeddingModel)
    ensures c.embeddingModel != Some(Settings.DefaultEmbeddingModel) ==>
              EmbedAsWritten(data, c, embed) != Embed(data, c, embed, Settings.DefaultEmbeddingModel)
  {
  }

  /** `update_config` as written: nulls skipped on an existing row, and
      the embedding stored without its model name. */
  function UpdateConfigAsWritten(existing: Option<Config>, data: map<String, Value>,
                                 embed: String -> Option<seq<real>>): Option<Config>
  {
    var f := FilterData(data);
    if existing.None? then
      match Create(f)
      case None => None
      case Some(c) => Some(EmbedAsWritten(data, c, embed))
    else Some(EmbedAsWritten(data, ApplyAsWritten(existing.value, f), embed))
  }

  /** `update_config` as intended: None when the insert fails. */
  function UpdateConfig(existing: Option<Config>, data: map<String, Value>,
                        embed: String -> Option<seq<real>>, model: String): (r: Option<Config>)
    ensures existing.Some? ==> r.Some?
    ensures existing.None? ==> (r.Some? <==> forall k :: k in FilterData(data) ==> IsColumn(k) && Fits(k, FilterData(data)[k]))
  {
    var f := FilterData(data);
    if existing.None? then
      match Create(f)
      case None => None
      case Some(c) => Some(Embed(data, c, embed, model))
    else Some(Embed(data, Apply(existing.value, f), embed, model))
  }

  /** As written, emptying the system prompt of an existing row keeps the
      old prompt, and the old prompt is embedded again. */
  lemma ClearPromptIgnoredAsWritten(c: Config, p: String, embed: String -> Option<seq<real>>)
    requires c.systemPrompt == Some(p) && p != []
    ensures var r := UpdateConfigAsWritten(Some(c), map[PromptKey := Text("")], embed);
            r.Some? && r.value.systemPrompt == Some(p) &&
            (embed(p).Some? ==> r.value.embedding == embed(p))
  {
    var data := map[PromptKey := Text("")];
    var f := FilterData(data);
    assert PromptKey in f && f[PromptKey] == Null;
    assert forall k :: k in f ==> k == PromptKey;
    assert ApplyAsWritten(c, f).systemPrompt == Some(p);
    assert PromptToEmbed(data, ApplyAsWritten(c, f)) == Some(p);
  }

  /** As intended, emptying a nullable field clears it, and an emptied
      required field keeps its value. */
  lemma EmptyingFieldsAsIntended(c: Config, embed: String -> Option<seq<real>>, model: String)
    ensures var r := UpdateConfig(Some(c), map[PromptKey := Text(""), AvatarKey := Text(""), NameKey := Text("")],
                                  embed, model);
            r.Some? && r.value.systemPrompt.None? && r.value.avatarUrl.None? && r.value.name == c.name
  {
    var data := map[PromptKey := Text(""), AvatarKey := Text(""), NameKey := Text("")];
    var f := FilterData(data);
    assert PromptKey in f && f[PromptKey] == Null;
    assert AvatarKey in f && f[AvatarKey] == Null;
    assert NameKey !in f;
  }

  /** A key that names no column is skipped on an existing row but makes
      the first insert fail. */
  lemma UnknownKey(c: Config, k: String, v: Value, embed: String -> Option<seq<real>>, model: String)
    requires !IsColumn(k) && !(k in RequiredWithDefaults && v == Text(""))
    ensures UpdateConfig(None, map[k := v], embed, model).None?
    ensures UpdateConfig(Some(c), map[k := v], embed, model).Some?
    ensures UpdateConfig(Some(c), map[k := v], embed, model).value.(embedding := c.embedding, embeddingModel := c.embeddingModel) == c
  {
    var f := FilterData(map[k := v]);
    assert k in f;
    assert forall j :: j in f ==> j == k;
    assert Apply(c, f) == c;
  }

  // ----------------------------------------------------------------------
  // The RAG prompt
  // ----------------------------------------------------------------------

  const DefaultPrompt: String := "You are a helpful assistant for Prompterly."

  const KnowledgeHeader: String :=
    "\n\n=== RELEVANT KNOWLEDGE ===\nUse the following information to help answer the user's questions. " +
    "If the information is relevant, incorporate it into your response naturally.\n\n"

  const KnowledgeFooter: String :=
    "\n\n=== END OF KNOWLEDGE ===\n\nRemember: Use the knowledge above when relevant, but also rely on your " +
    "general capabilities to provide helpful responses. If the user asks about something not covered in the " +
    "knowledge base, provide the best response you can."

  /** `_build_system_prompt_with_rag`: the base prompt alone without
      context, else the base prompt, then the context between the
      knowledge delimiters. */
  function PromptWithRag(base: String, context: String): (r: String)
    ensures context == [] ==> r == base
    ensures |r| >= |base|
    ensures context != [] ==> |r| == |base| + |KnowledgeHeader| + |context| + |KnowledgeFooter|
    ensures r[..|base|] == base
    ensures context != [] ==> r[|base| + |KnowledgeHeader|..|base| + |KnowledgeHeader| + |context|] == context
    ensures context != [] ==> r[|base| + |KnowledgeHeader| + |context|..] == KnowledgeFooter
  {
    if context == [] then base
    else
      var r := base + KnowledgeHeader + context + KnowledgeFooter;
      assert r[..|base|] == base;
      assert r[|base| + |KnowledgeHeader|..|base| + |KnowledgeHeader| + |context|] == context;
      r
  }

  /** `config.system_prompt or "You are a helpful assistant ..."` */
  function BasePrompt(c: Config): (r: String)
    ensures r != []
    ensures c.systemPrompt.Some? && c.systemPrompt.value != [] ==> r == c.systemPrompt.value
  {
    if c.systemPrompt.Some? && c.systemPrompt.value != [] then c.systemPrompt.value else DefaultPrompt
  }

  /** `rag_similarity_threshold / 100.0` */
  function Threshold(c: Config): real
  {
    c.ragSimilarityThreshold as real / 100.0
  }

  /** The column default gives the knowledge base's own default threshold,
      and a higher percentage is a stricter threshold. */
  lemma ThresholdScale(c: Config, d: Config)
    ensures c.ragSimilarityThreshold == DefaultThresholdPercent ==>
              Threshold(c) == KnowledgeBaseService.DefaultSimilarityThreshold
    ensures c.ragSimilarityThreshold <= d.ragSimilarityThreshold ==> Threshold(c) <= Threshold(d)
  {
  }

  // ----------------------------------------------------------------------
  // Messages and history
  // ----------------------------------------------------------------------

  /** `public_chat_messages` */
  datatype Message = Message(id: int, sessionId: String, role: String, content: String, createdAt: Time)

  /** One `{"role": ..., "content": ...}` entry. */
  datatype Turn = Turn(role: String, content: String)

  const HistoryLimit: nat := 20

  function ByCreatedDesc(m: Message): Key { (m.createdAt, 0) }

  function Turns(ms: seq<Message>): (r: seq<Turn>)
    ensures |r| == |ms| && forall k :: 0 <= k < |ms| ==> r[k] == Turn(ms[k].role, ms[k].content)
  {
    seq(|ms|, k requires 0 <= k < |ms| => Turn(ms[k].role, ms[k].content))
  }

  /** The session's newest `limit` messages, oldest first. */
  function Recent(ms: seq<Message>, sessionId: String, limit: nat): seq<Message>
  {
    Reverse(Take(SortDesc(Filter(ms, (m: Message) => m.sessionId == sessionId), ByCreatedDesc), limit))
  }

  /** `get_conversation_history` */
  function History(ms: seq<Message>, sessionId: String, limit: nat): seq<Turn>
  {
    Turns(Recent(ms, sessionId, limit))
  }

  /** Reversing a newest-first list gives an oldest-first one. */
  lemma ReverseChronological(s: seq<Message>)
    requires SortedDesc(s, ByCreatedDesc)
    ensures forall i, j :: 0 <= i < j < |s| ==> Reverse(s)[i].createdAt <= Reverse(s)[j].createdAt
  {
    forall i, j | 0 <= i < j < |s| ensures Reverse(s)[i].createdAt <= Reverse(s)[j].createdAt {
      assert KeyGe(ByCreatedDesc(s[|s| - 1 - j]), ByCreatedDesc(s[|s| - 1 - i]));
    }
  }

  /** The history holds only the session's messages, at most `limit` of
      them (all of them when fewer), in chronological order. */
  lemma RecentSound(ms: seq<Message>, sessionId: String, limit: nat)
    ensures var r := Recent(ms, sessionId, limit);
            |r| == Min(limit, Count(ms, (m: Message) => m.sessionId == sessionId)) &&
            (forall k :: 0 <= k < |r| ==> r[k] in ms && r[k].sessionId == sessionId) &&
            (forall i, j :: 0 <= i < j < |r| ==> r[i].createdAt <= r[j].createdAt)
  {
    var p := (m: Message) => m.sessionId == sessionId;
    var sel := Filter(ms, p);
    var sorted := SortDesc(sel, ByCreatedDesc);
    SortDescFacts(sel, ByCreatedDesc);
    var top := Take(sorted, limit);
    FilterCount(ms, p);
    forall k | 0 <= k < |top| ensures top[k] in ms && top[k].sessionId == sessionId {
      assert top[k] == sorted[k];
      assert sorted[k] in multiset(sel);
    }
    assert SortedDesc(top, ByCreatedDesc) by {
      forall i, j | 0 <= i < j < |top| ensures KeyGe(ByCreatedDesc(top[i]), ByCreatedDesc(top[j])) {
        assert top[i] == sorted[i] && top[j] == sorted[j];
      }
    }
    ReverseChronological(top);
  }

  /** `clear_session`: the session's messages go, every other stays in order. */
  function ClearSession(ms: seq<Message>, sessionId: String): (r: seq<Message>)
    ensures forall m :: m in r <==> m in ms && m.sessionId != sessionId
  {
    Filter(ms, (m: Message) => m.sessionId != sessionId)
  }

  /** Filtering twice keeps what both conditions keep. */
  lemma {:induction false} FilterBoth<T>(s: seq<T>, p: T -> bool, q: T -> bool, pq: T -> bool)
    requires forall x :: pq(x) == (p(x) && q(x))
    ensures Filter(Filter(s, p), q) == Filter(s, pq)
  {
    if s != [] {
      FilterBoth(s[1..], p, q, pq);
      if p(s[0]) {
        assert Filter(s, p) == [s[0]] + Filter(s[1..], p);
        assert Filter(s, p)[1..] == Filter(s[1..], p);
        assert Filter(Filter(s, p), q) == (if q(s[0]) then [s[0]] else []) + Filter(Filter(s[1..], p), q);
      } else {
        assert Filter(s, p) == Filter(s[1..], p);
      }
    }
  }

  /** After clearing, the session has no history, and every other
      session's history is exactly what it was. */
  lemma ClearSessionIsolated(ms: seq<Message>, sessionId: String, other: String, limit: nat)
    requires other != sessionId
    ensures History(ClearSession(ms, sessionId), sessionId, limit) == []
    ensures History(ClearSession(ms, sessionId), other, limit) == History(ms, other, limit)
  {
    var cleared := ClearSession(ms, sessionId);
    var mine := (m: Message) => m.sessionId == sessionId;
    assert forall k :: 0 <= k < |cleared| ==> !mine(cleared[k]) by {
      forall k | 0 <= k < |cleared| ensures !mine(cleared[k]) {
        assert cleared[k] in cleared;
      }
    }
    CountNone(cleared, mine);
    FilterCount(cleared, mine);
    FilterBoth(ms, (m: Message) => m.sessionId != sessionId, (m: Message) => m.sessionId == other,
               (m: Message) => m.sessionId == other);
  }

  // ----------------------------------------------------------------------
  // send_message
  // ----------------------------------------------------------------------

  const Disabled: String := "Chatbot is currently disabled"
  const FailedPrefix: String := "Failed to generate response: "

  /** What `get_rag_context` hands back: the search's answer, or nothing
      when it raised. */
  function RagOrEmpty(rag: Option<KnowledgeBaseService.RagContext>): KnowledgeBaseService.RagContext
  {
    if rag.Some? then rag.value else KnowledgeBaseService.RagContext("", [])
  }

  /** The system prompt `send_message` gives the model. `rag` is the answer
      to the knowledge-base search at `Threshold(c)`. */
  function SystemPrompt(c: Config, rag: Option<KnowledgeBaseService.RagContext>): (r: String)
    ensures !c.useRag ==> r == BasePrompt(c)
    ensures |r| >= |BasePrompt(c)|
    ensures r[..|BasePrompt(c)|] == BasePrompt(c)
  {
    PromptWithRag(BasePrompt(c), if c.useRag then RagOrEmpty(rag).context else "")
  }

  /** The reply of `send_message`. */
  datatype Reply = Reply(response: String, sessionId: String, sources: Option<seq<KnowledgeBaseService.RagSource>>)

  /** `send_message` on the messages table. A missing or disabled
      configuration raises before anything is saved; otherwise the user's
      message is saved first and stays saved when the model fails. */
  function SendMessage(config: Option<Config>, ms: seq<Message>, sessionId: String, content: String,
                       rag: Option<KnowledgeBaseService.RagContext>,
                       ai: (seq<Turn>, String) -> Result<String>, nextId: int, now: Time)
    : (r: (Result<Reply>, seq<Message>))
    ensures config.None? || !config.value.isEnabled ==> r == (Failure(Disabled), ms)
    ensures config.Some? && config.value.isEnabled ==>
              |r.1| >= |ms| + 1 && r.1[..|ms| + 1] == ms + [Message(nextId, sessionId, "user", content, now)]
    ensures r.0.Success? ==> |r.1| == |ms| + 2 && r.1[|ms| + 1].role == "assistant" &&
                             r.1[|ms| + 1].content == r.0.value.response && r.1[|ms| + 1].sessionId == sessionId &&
                             r.0.value.sessionId == sessionId
    ensures r.0.Success? ==> (r.0.value.sources.Some? ==> r.0.value.sources.value != [])
    ensures r.0.Failure? && config.Some? && config.value.isEnabled ==>
              |r.1| == |ms| + 1 && |r.0.error| >= |FailedPrefix| && r.0.error[..|FailedPrefix|] == FailedPrefix
  {
    if config.None? || !config.value.isEnabled then (Failure(Disabled), ms)
    else
      var c := config.value;
      var withUser := ms + [Message(nextId, sessionId, "user", content, now)];
      var history := History(withUser, sessionId, HistoryLimit);
      var found := if c.useRag then RagOrEmpty(rag) else KnowledgeBaseService.RagContext("", []);
      match ai(history, SystemPrompt(c, rag))
      case Failure(e) =>
        assert (FailedPrefix + e)[..|FailedPrefix|] == FailedPrefix;
        (Failure(FailedPrefix + e), withUser)
      case Success(answer) =>
        var all := withUser + [Message(nextId + 1, sessionId, "assistant", answer, now)];
        assert all[..|ms| + 1] == withUser;
        (Success(Reply(answer, sessionId, if found.sources == [] then None else Some(found.sources))), all)
  }

  /** The model sees the user's new message as the last turn of the
      history, provided the clock has not gone backwards. */
  lemma NewMessageEndsHistory(ms: seq<Message>, sessionId: String, content: String, nextId: int, now: Time)
    requires forall m :: m in ms ==> m.createdAt < now
    ensures var h := History(ms + [Message(nextId, sessionId, "user", content, now)], sessionId, HistoryLimit);
            h != [] && h[|h| - 1] == Turn("user", content)
  {
    var m := Message(nextId, sessionId, "user", content, now);
    var t := ms + [m];
    var p := (x: Message) => x.sessionId == sessionId;
    var sel := Filter(t, p);
    assert t[|ms|] == m;
    assert m in sel;
    NewestSortsFirst(sel, m);
    var sorted := SortDesc(sel, ByCreatedDesc);
    var top := Take(sorted, HistoryLimit);
    assert top[0] == m;
    var r := Recent(t, sessionId, HistoryLimit);
    assert r == Reverse(top);
    assert r[|r| - 1] == m;
  }

  /** A message newer than every other one of a selection sorts first. */
  lemma NewestSortsFirst(sel: seq<Message>, m: Message)
    requires m in sel && forall x :: x in sel ==> x == m || x.createdAt < m.createdAt
    ensures SortDesc(sel, ByCreatedDesc) != [] && SortDesc(sel, ByCreatedDesc)[0] == m
  {
    var sorted := SortDesc(sel, ByCreatedDesc);
    SortDescFacts(sel, ByCreatedDesc);
    var j :| 0 <= j < |sorted| && sorted[j] == m;
    forall k | 0 <= k < |sorted| ensures sorted[k] == m || sorted[k].createdAt < m.createdAt {
      assert sorted[k] in sel;
    }
    NewestFirst(sorted, m, j);
  }

  /** A message newer than every other one sorts first. */
  lemma NewestFirst(s: seq<Message>, m: Message, j: nat)
    requires SortedDesc(s, ByCreatedDesc) && j < |s| && s[j] == m
    requires forall k :: 0 <= k < |s| ==> s[k] == m || s[k].createdAt < m.createdAt
    ensures s[0] == m
  {
    if j > 0 {
      assert KeyGe(ByCreatedDesc(s[0]), ByCreatedDesc(s[j]));
    }
  }

  // ----------------------------------------------------------------------
  // send_message_stream
  // ----------------------------------------------------------------------

  /** The events the stream yields. */
  datatype Event =
    | ErrorEvent(error: String)
    | UserMessage(id: int, content: String)
    | RagSources(found: seq<KnowledgeBaseService.RagSource>)
    | AiChunk(content: String)
    | AiComplete(id: int, content: String, sources: Option<seq<KnowledgeBaseService.RagSource>>)

  /** What the streaming model produces: chunks, then possibly an exception. */
  datatype Stream = Stream(chunks: seq<String>, failure: Option<String>)

  function Concat(parts: seq<String>): (r: String)
    ensures parts == [] ==> r == []
  {
    if parts == [] then [] else Concat(parts[..|parts| - 1]) + parts[|parts| - 1]
  }

  function ChunkEvents(parts: seq<String>): (r: seq<Event>)
    ensures |r| == |parts| && forall k :: 0 <= k < |parts| ==> r[k] == AiChunk(parts[k])
  {
    seq(|parts|, k requires 0 <= k < |parts| => AiChunk(parts[k]))
  }

  /** `send_message_stream`: the same guard as `send_message`, answered
      with one error event; then the user message, the sources when there
      are any, one event per chunk, and the completion, whose content is the
      chunks joined and is what is saved. A failing model ends the stream
      with an error event and saves no answer. */
  function SendMessageStream(config: Option<Config>, ms: seq<Message>, sessionId: String, content: String,
                             rag: Option<KnowledgeBaseService.RagContext>, stream: Stream, nextId: int, now: Time)
    : (r: (seq<Event>, seq<Message>))
    ensures config.None? || !config.value.isEnabled ==> r == ([ErrorEvent(Disabled)], ms)
    ensures config.Some? && config.value.isEnabled ==>
              |r.0| >= 2 && r.0[0] == UserMessage(nextId, content) &&
              |r.1| >= |ms| + 1 && r.1[..|ms| + 1] == ms + [Message(nextId, sessionId, "user", content, now)]
    ensures config.Some? && config.value.isEnabled && stream.failure.None? ==>
              |r.1| == |ms| + 2 && r.1[|ms| + 1].content == Concat(stream.chunks) &&
              r.0[|r.0| - 1].AiComplete? && r.0[|r.0| - 1].content == Concat(stream.chunks)
    ensures config.Some? && config.value.isEnabled && stream.failure.Some? ==>
              |r.1| == |ms| + 1 && r.0[|r.0| - 1] == ErrorEvent(stream.failure.value)
  {
    if config.None? || !config.value.isEnabled then ([ErrorEvent(Disabled)], ms)
    else
      var c := config.value;
      var withUser := ms + [Message(nextId, sessionId, "user", content, now)];
      var found := if c.useRag then RagOrEmpty(rag) else KnowledgeBaseService.RagContext("", []);
      var head := [UserMessage(nextId, content)] + (if found.sources != [] then [RagSources(found.sources)] else []);
      var body := head + ChunkEvents(stream.chunks);
      if stream.failure.Some? then
        (body + [ErrorEvent(stream.failure.value)], withUser)
      else
        var full := Concat(stream.chunks);
        var all := withUser + [Message(nextId + 1, sessionId, "assistant", full, now)];
        assert all[..|ms| + 1] == withUser;
        (body + [AiComplete(nextId + 1, full, if found.sources == [] then None else Some(found.sources))], all)
  }

  // ----------------------------------------------------------------------
  // The two tables
  // ----------------------------------------------------------------------

  class ChatbotStore {
    var config: Option<Config>
    var messages: seq<Message>
    var nextMessageId: int

    constructor()
      ensures config.None? && messages == []
    {
      config := None;
      messages := [];
      nextMessageId := 1;
    }

    /** `update_config`; None where the insert fails. */
    method UpdateConfigRow(data: map<String, Value>, embed: String -> Option<seq<real>>, model: String)
      returns (r: Option<Config>)
      modifies this
      ensures r == UpdateConfig(old(config), data, embed, model)
      ensures r.Some? ==> config == r
      ensures r.None? ==> config == old(config)
      ensures messages == old(messages) && nextMessageId == old(nextMessageId)
    {
      r := UpdateConfig(config, data, embed, model);
      if r.Some? {
        config := r;
      }
    }

    /** `send_message` */
    method Send(sessionId: String, content: String, rag: Option<KnowledgeBaseService.RagContext>,
                ai: (seq<Turn>, String) -> Result<String>, now: Time) returns (r: Result<Reply>)
      modifies this
      ensures (r, messages) == SendMessage(config, old(messages), sessionId, content, rag, ai, old(nextMessageId), now)
      ensures nextMessageId == old(nextMessageId) + (|messages| - |old(messages)|)
      ensures config == old(config)
    {
      var out := SendMessage(config, messages, sessionId, content, rag, ai, nextMessageId, now);
      nextMessageId := nextMessageId + (|out.1| - |messages|);
      messages := out.1;
      r := out.0;
    }

    /** `clear_session`: always answers true. */
    method Clear(sessionId: String) returns (r: bool)
      modifies this
      ensures r && messages == ClearSession(old(messages), sessionId)
      ensures config == old(config) && nextMessageId == old(nextMessageId)
    {
      messages := ClearSession(messages, sessionId);
      r := true;
    }
  }
}
