/**
 * The run-time configuration and the `/set`-`/get` parameter table: each
 * parameter has a setter that parses the text it is given and assigns one
 * configuration field, or rejects the text and leaves everything unchanged,
 * and a getter that reads the field back (API keys masked).
 */
module ConfigFields {
  import opened Wrappers
  import opened Text
  import opened GoStrconv

  /**
   * What strconv.ParseFloat and time.ParseDuration make of the value text.
   * Those parsers are not part of this model: their results are inputs.
   * A duration is in nanoseconds.
   */
  datatype ForeignParses = ForeignParses(float: Option<real>, duration: Option<int>)

  datatype BotConfig = BotConfig(
    addressed: bool, prompt: string, showThinkingAction: bool, showToolActions: bool,
    urlWatcher: bool, admins: seq<string>)
  datatype ModelConfig = ModelConfig(
    model: string, maxTokens: int, temperature: real, topP: real, thinking: bool)
  datatype APIConfig = APIConfig(
    openAIURL: string, ollamaURL: string, ollamaKey: string, openAIKey: string,
    anthropicKey: string, geminiKey: string, timeout: int)
  datatype SessionConfig = SessionConfig(ttl: int, maxHistory: int, chunkMax: int)

  /** Every configuration field, as one value. */
  datatype Settings = Settings(bot: BotConfig, model: ModelConfig, api: APIConfig, session: SessionConfig)

  /** What a getter reports. */
  datatype Value = BoolValue(b: bool) | IntValue(i: int) | TextValue(s: string)
                 | FloatValue(f: real) | DurationValue(ns: int)

  datatype SetOutcome =
    | Applied(settings: Settings)
    | Invalid(message: string)   // the setter rejected the text
    | UnknownParameter           // no setter of that name

  /** The entries of the parameter table, grouped by how their text is parsed. */
  datatype BoolParam = Addressed | Thinking | ShowThinkingAction | ShowToolActions | URLWatcher
  datatype IntParam = MaxTokens | SessionHistory | ChunkMax
  datatype TextParam = Prompt | Model | OpenAIURL | OllamaURL | OllamaKey | OpenAIKey | AnthropicKey | GeminiKey
  datatype FloatParam = Temperature | TopP
  datatype DurationParam = SessionDuration | APITimeout
  datatype Param =
    | BoolField(b: BoolParam) | IntField(i: IntParam) | TextField(t: TextParam)
    | FloatField(f: FloatParam) | DurationField(d: DurationParam)

  const AllParams: set<Param> := {
    BoolField(Addressed), BoolField(Thinking), BoolField(ShowThinkingAction),
    BoolField(ShowToolActions), BoolField(URLWatcher),
    IntField(MaxTokens), IntField(SessionHistory), IntField(ChunkMax),
    TextField(Prompt), TextField(Model), TextField(OpenAIURL), TextField(OllamaURL),
    TextField(OllamaKey), TextField(OpenAIKey), TextField(AnthropicKey), TextField(GeminiKey),
    FloatField(Temperature), FloatField(TopP),
    DurationField(SessionDuration), DurationField(APITimeout)}

  /** API keys, which the getters mask. */
  predicate IsSecret(t: TextParam) {
    t == OllamaKey || t == OpenAIKey || t == AnthropicKey || t == GeminiKey
  }

  /** The name a parameter has in the table. */
  function Name(p: Param): string {
    match p
    case BoolField(Addressed) => "addressed"
    case BoolField(Thinking) => "thinking"
    case BoolField(ShowThinkingAction) => "showthinkingaction"
    case BoolField(ShowToolActions) => "showtoolactions"
    case BoolField(URLWatcher) => "urlwatcher"
    case IntField(MaxTokens) => "maxtokens"
    case IntField(SessionHistory) => "sessionhistory"
    case IntField(ChunkMax) => "chunkmax"
    case TextField(Prompt) => "prompt"
    case TextField(Model) => "model"
    case TextField(OpenAIURL) => "openaiurl"
    case TextField(OllamaURL) => "ollamaurl"
    case TextField(OllamaKey) => "ollamakey"
    case TextField(OpenAIKey) => "openaikey"
    case TextField(AnthropicKey) => "anthropickey"
    case TextField(GeminiKey) => "geminikey"
    case FloatField(Temperature) => "temperature"
    case FloatField(TopP) => "top_p"
    case DurationField(SessionDuration) => "sessionduration"
    case DurationField(APITimeout) => "apitimeout"
  }

  /** The table lookup by name. */
  function Lookup(key: string): (r: Option<Param>)
    ensures r.Some? ==> Name(r.value) == key
  {
    match key
    case "addressed" => Some(BoolField(Addressed))
    case "thinking" => Some(BoolField(Thinking))
    case "showthinkingaction" => Some(BoolField(ShowThinkingAction))
    case "showtoolactions" => Some(BoolField(ShowToolActions))
    case "urlwatcher" => Some(BoolField(URLWatcher))
    case "maxtokens" => Some(IntField(MaxTokens))
    case "sessionhistory" => Some(IntField(SessionHistory))
    case "chunkmax" => Some(IntField(ChunkMax))
    case "prompt" => Some(TextField(Prompt))
    case "model" => Some(TextField(Model))
    case "openaiurl" => Some(TextField(OpenAIURL))
    case "ollamaurl" => Some(TextField(OllamaURL))
    case "ollamakey" => Some(TextField(OllamaKey))
    case "openaikey" => Some(TextField(OpenAIKey))
    case "anthropickey" => Some(TextField(AnthropicKey))
    case "geminikey" => Some(TextField(GeminiKey))
    case "temperature" => Some(FloatField(Temperature))
    case "top_p" => Some(FloatField(TopP))
    case "sessionduration" => Some(DurationField(SessionDuration))
    case "apitimeout" => Some(DurationField(APITimeout))
    case _ => None
  }

  /** Every parameter is found under its own name. */
  lemma LookupName(p: Param)
    ensures Lookup(Name(p)) == Some(p)
  {
  }

  /** No two parameters share a name. */
  lemma NamesAreDistinct(p: Param, q: Param)
    requires Name(p) == Name(q)
    ensures p == q
  {
    LookupName(p);
    LookupName(q);
  }

  /** "admins" and "tools" are handled outside the table. */
  lemma ExtraKeysAreNotParameters(p: Param)
    ensures Name(p) != "admins" && Name(p) != "tools"
  {
    match p
    case TextField(Prompt) => assert Name(p)[0] != "admins"[0];
    case TextField(Model) => assert Name(p)[0] != "tools"[0];
    case FloatField(TopP) => assert Name(p)[2] != "tools"[2];
    case _ =>
  }

  /**
   * An API key as shown: "(not set)" when empty, all stars when it has at most
   * four characters, otherwise the first four characters and a star for every
   * further character.
   */
  function MaskAPIKey(key: string): (r: string)
    ensures key == "" ==> r == "(not set)"
    ensures key != "" ==> |r| == |key|
    ensures key != "" ==> forall i :: 0 <= i < |key| ==> r[i] == if i < 4 && |key| > 4 then key[i] else '*'
  {
    if key == "" then "(not set)"
    else if |key| <= 4 then Repeat('*', |key|)
    else key[..4] + Repeat('*', |key| - 4)
  }

  /** Keys that agree on their first four characters and their length are shown alike. */
  lemma {:induction false} MaskHidesTail(key: string, other: string)
    requires |key| == |other| && |key| > 4 && key[..4] == other[..4]
    ensures MaskAPIKey(key) == MaskAPIKey(other)
  {
    var a, b := MaskAPIKey(key), MaskAPIKey(other);
    assert forall i :: 0 <= i < |a| ==> a[i] == b[i] by {
      forall i | 0 <= i < |a| ensures a[i] == b[i] {
        if i < 4 {
          assert key[i] == key[..4][i] == other[..4][i] == other[i];
        }
      }
    }
  }

  /** The getter of parameter `p`. */
  function Get(s: Settings, p: Param): Value {
    match p
    case BoolField(b) => BoolValue(GetBool(s, b))
    case IntField(i) => IntValue(GetInt(s, i))
    case TextField(t) => TextValue(if IsSecret(t) then MaskAPIKey(GetText(s, t)) else GetText(s, t))
    case FloatField(f) => FloatValue(if f == Temperature then s.model.temperature else s.model.topP)
    case DurationField(d) => DurationValue(if d == SessionDuration then s.session.ttl else s.api.timeout)
  }

  function GetBool(s: Settings, b: BoolParam): bool {
    match b
    case Addressed => s.bot.addressed
    case Thinking => s.model.thinking
    case ShowThinkingAction => s.bot.showThinkingAction
    case ShowToolActions => s.bot.showToolActions
    case URLWatcher => s.bot.urlWatcher
  }

  function GetInt(s: Settings, i: IntParam): int {
    match i
    case MaxTokens => s.model.maxTokens
    case SessionHistory => s.session.maxHistory
    case ChunkMax => s.session.chunkMax
  }

  function GetText(s: Settings, t: TextParam): string {
    match t
    case Prompt => s.bot.prompt
    case Model => s.model.model
    case OpenAIURL => s.api.openAIURL
    case OllamaURL => s.api.ollamaURL
    case OllamaKey => s.api.ollamaKey
    case OpenAIKey => s.api.openAIKey
    case AnthropicKey => s.api.anthropicKey
    case GeminiKey => s.api.geminiKey
  }

  /** Whether the setter of `p` accepts `value`. */
  predicate Accepts(p: Param, value: string, parses: ForeignParses) {
    match p
    case BoolField(_) => ParseBool(value).Some?
    case IntField(_) => Atoi(value).Some?
    case TextField(_) => true
    case FloatField(f) => parses.float.Some? && (f == TopP ==> 0.0 <= parses.float.value <= 1.0)
    case DurationField(_) => parses.duration.Some?
  }

  /** The value the getter reports after the setter of `p` accepted `value`. */
  function Stored(p: Param, value: string, parses: ForeignParses): Value
    requires Accepts(p, value, parses)
  {
    match p
    case BoolField(_) => BoolValue(ParseBool(value).value)
    case IntField(_) => IntValue(Atoi(value).value)
    case TextField(t) => TextValue(if IsSecret(t) then MaskAPIKey(value) else value)
    case FloatField(_) => FloatValue(parses.float.value)
    case DurationField(_) => DurationValue(parses.duration.value)
  }

  /** The error text of a rejected value. */
  function ErrorMessage(p: Param, parses: ForeignParses): string {
    var prefix := "invalid value for " + Name(p) + ". Please provide ";
    match p
    case BoolField(_) => prefix + "'true' or 'false'"
    case IntField(_) => prefix + "a valid integer"
    case TextField(_) => ""
    case FloatField(_) =>
      if parses.float.Some? then prefix + "a float between 0 and 1" else prefix + "a valid float"
    case DurationField(SessionDuration) => prefix + "a valid duration (e.g. 10m, 1h)"
    case DurationField(APITimeout) => prefix + "a valid duration (e.g. 30s, 5m)"
  }

  function WithBool(s: Settings, b: BoolParam, v: bool): Settings {
    match b
    case Addressed => s.(bot := s.bot.(addressed := v))
    case Thinking => s.(model := s.model.(thinking := v))
    case ShowThinkingAction => s.(bot := s.bot.(showThinkingAction := v))
    case ShowToolActions => s.(bot := s.bot.(showToolActions := v))
    case URLWatcher => s.(bot := s.bot.(urlWatcher := v))
  }

  function WithInt(s: Settings, i: IntParam, n: int): Settings {
    match i
    case MaxTokens => s.(model := s.model.(maxTokens := n))
    case SessionHistory => s.(session := s.session.(maxHistory := n))
    case ChunkMax => s.(session := s.session.(chunkMax := n))
  }

  function WithText(s: Settings, t: TextParam, v: string): Settings {
    match t
    case Prompt => s.(bot := s.bot.(prompt := v))
    case Model => s.(model := s.model.(model := v))
    case OpenAIURL => s.(api := s.api.(openAIURL := v))
    case OllamaURL => s.(api := s.api.(ollamaURL := v))
    case OllamaKey => s.(api := s.api.(ollamaKey := v))
    case OpenAIKey => s.(api := s.api.(openAIKey := v))
    case AnthropicKey => s.(api := s.api.(anthropicKey := v))
    case GeminiKey => s.(api := s.api.(geminiKey := v))
  }

  /** float32 rounding is not modelled: the parsed value is stored as it is. */
  function WithFloat(s: Settings, f: FloatParam, x: real): Settings {
    if f == Temperature then s.(model := s.model.(temperature := x)) else s.(model := s.model.(topP := x))
  }

  function WithDuration(s: Settings, d: DurationParam, ns: int): Settings {
    if d == SessionDuration then s.(session := s.session.(ttl := ns)) else s.(api := s.api.(timeout := ns))
  }

  /** Assign the parsed `value` to the field of `p`. */
  function Assign(s: Settings, p: Param, value: string, parses: ForeignParses): Settings
    requires Accepts(p, value, parses)
  {
    match p
    case BoolField(b) => WithBool(s, b, ParseBool(value).value)
    case IntField(i) => WithInt(s, i, Atoi(value).value)
    case TextField(t) => WithText(s, t, value)
    case FloatField(f) => WithFloat(s, f, parses.float.value)
    case DurationField(d) => WithDuration(s, d, parses.duration.value)
  }

  /** The setter of `p`, applied to `value`: the parsed value is assigned, or the text is rejected. */
  function ApplyParam(s: Settings, p: Param, value: string, parses: ForeignParses): (r: SetOutcome)
    ensures !r.UnknownParameter?
  {
    if Accepts(p, value, parses) then Applied(Assign(s, p, value, parses))
    else Invalid(ErrorMessage(p, parses))
  }

  /** The table lookup by name, then the setter found there. */
  function Apply(s: Settings, key: string, value: string, parses: ForeignParses): (r: SetOutcome)
    ensures r.UnknownParameter? <==> Lookup(key).None?
    ensures Lookup(key).Some? ==> r == ApplyParam(s, Lookup(key).value, value, parses)
  {
    match Lookup(key)
    case None => UnknownParameter
    case Some(p) => ApplyParam(s, p, value, parses)
  }

  /** A setter rejects exactly the text its parser refuses (and top_p outside [0, 1]). */
  lemma ApplyRejectsExactly(s: Settings, p: Param, value: string, parses: ForeignParses)
    ensures Apply(s, Name(p), value, parses).Invalid? <==> !Accepts(p, value, parses)
  {
    LookupName(p);
  }

  /** Reading a parameter back after setting it gives the parsed value. */
  lemma ApplyThenGet(s: Settings, p: Param, value: string, parses: ForeignParses)
    requires Apply(s, Name(p), value, parses).Applied?
    ensures Accepts(p, value, parses)
    ensures Get(Apply(s, Name(p), value, parses).settings, p) == Stored(p, value, parses)
  {
    LookupName(p);
  }

  /** A setter changes its own parameter and no other, and never the admin list. */
  lemma ApplyLeavesOthers(s: Settings, p: Param, value: string, parses: ForeignParses, q: Param)
    requires Apply(s, Name(p), value, parses).Applied? && q != p
    ensures Get(Apply(s, Name(p), value, parses).settings, q) == Get(s, q)
    ensures Apply(s, Name(p), value, parses).settings.bot.admins == s.bot.admins
  {
    LookupName(p);
    match p
    case BoolField(b) => WithBoolLeavesOthers(s, b, ParseBool(value).value, q);
    case IntField(i) => WithIntLeavesOthers(s, i, Atoi(value).value, q);
    case TextField(t) => WithTextLeavesOthers(s, t, value, q);
    case FloatField(f) => WithFloatLeavesOthers(s, f, parses.float.value, q);
    case DurationField(d) => WithDurationLeavesOthers(s, d, parses.duration.value, q);
  }

  lemma WithBoolLeavesOthers(s: Settings, b: BoolParam, v: bool, q: Param)
    requires q != BoolField(b)
    ensures Get(WithBool(s, b, v), q) == Get(s, q)
    ensures WithBool(s, b, v).bot.admins == s.bot.admins
  {
    match q
    case BoolField(c) =>
    case _ =>
  }

  lemma WithIntLeavesOthers(s: Settings, i: IntParam, n: int, q: Param)
    requires q != IntField(i)
    ensures Get(WithInt(s, i, n), q) == Get(s, q)
    ensures WithInt(s, i, n).bot.admins == s.bot.admins
  {
    match q
    case IntField(c) =>
    case _ =>
  }

  lemma WithTextLeavesOthers(s: Settings, t: TextParam, v: string, q: Param)
    requires q != TextField(t)
    ensures Get(WithText(s, t, v), q) == Get(s, q)
    ensures WithText(s, t, v).bot.admins == s.bot.admins
  {
    match q
    case TextField(c) =>
    case _ =>
  }

  lemma WithFloatLeavesOthers(s: Settings, f: FloatParam, x: real, q: Param)
    requires q != FloatField(f)
    ensures Get(WithFloat(s, f, x), q) == Get(s, q)
    ensures WithFloat(s, f, x).bot.admins == s.bot.admins
  {
  }

  lemma WithDurationLeavesOthers(s: Settings, d: DurationParam, ns: int, q: Param)
    requires q != DurationField(d)
    ensures Get(WithDuration(s, d, ns), q) == Get(s, q)
    ensures WithDuration(s, d, ns).bot.admins == s.bot.admins
  {
  }

  /** `chunkmax` takes any int64, zero and negative values included. */
  lemma ChunkMaxAcceptsAnyInteger(s: Settings, n: int, parses: ForeignParses)
    requires MinInt64 <= n <= MaxInt64
    ensures ApplyParam(s, IntField(ChunkMax), IntToString(n), parses)
              == Applied(s.(session := s.session.(chunkMax := n)))
  {
    AtoiIntToString(n);
  }

  /** A boolean parameter given anything but a ParseBool spelling keeps its value. */
  lemma BadBoolIsRejected(s: Settings, b: BoolParam, value: string, parses: ForeignParses)
    requires ParseBool(value).None?
    ensures Apply(s, Name(BoolField(b)), value, parses)
              == Invalid("invalid value for " + Name(BoolField(b)) + ". Please provide " + "'true' or 'false'")
  {
    LookupName(BoolField(b));
  }

  /** The names of `params`, in order. */
  function Names(params: seq<Param>): (r: seq<string>)
    ensures |r| == |params|
  {
    if params == [] then [] else Names(params[..|params| - 1]) + [Name(params[|params| - 1])]
  }

  lemma {:induction false} NamesAt(params: seq<Param>, i: nat)
    requires i < |params|
    ensures Names(params)[i] == Name(params[i])
    decreases |params|
  {
    if i < |params| - 1 {
      NamesAt(params[..|params| - 1], i);
    }
  }

  /** `taken` lists, once each, the parameters not `remaining`. */
  ghost predicate Listed(taken: seq<Param>, remaining: set<Param>) {
    && remaining <= AllParams
    && |taken| + |remaining| == |AllParams|
    && (forall p :: p in AllParams ==> (p in taken <==> p !in remaining))
    && (forall i, j :: 0 <= i < j < |taken| ==> taken[i] != taken[j])
  }

  lemma ListStep(taken: seq<Param>, remaining: set<Param>, p: Param)
    requires Listed(taken, remaining) && p in remaining
    ensures Listed(taken + [p], remaining - {p})
    ensures Names(taken + [p]) == Names(taken) + [Name(p)]
  {
    assert (taken + [p])[..|taken|] == taken;
  }

  /**
   * The names `/get` and `/set` offer: every parameter name once, in an
   * unspecified order (Go map iteration), then "admins" and "tools".
   */
  method GetConfigKeys() returns (keys: seq<string>)
    ensures |keys| == |AllParams| + 2
    ensures keys[|keys| - 2..] == ["admins", "tools"]
    ensures forall p :: p in AllParams ==> Name(p) in keys[..|AllParams|]
    ensures forall k :: k in keys[..|AllParams|] ==> Lookup(k).Some?
    ensures forall i, j :: 0 <= i < j < |keys| ==> keys[i] != keys[j]
  {
    keys := [];
    ghost var taken: seq<Param> := [];
    var remaining := AllParams;
    while remaining != {}
      invariant keys == Names(taken) && Listed(taken, remaining)
      decreases |remaining|
    {
      var p :| p in remaining;
      ListStep(taken, remaining, p);
      keys := keys + [Name(p)];
      taken := taken + [p];
      remaining := remaining - {p};
    }
    KeysOfTable(taken);
    ExtraKeys(keys);
    keys := keys + ["admins", "tools"];
  }

  lemma ExtraKeys(named: seq<string>)
    requires forall i, j :: 0 <= i < j < |named| ==> named[i] != named[j]
    requires forall k :: k in named ==> k != "admins" && k != "tools"
    ensures var keys := named + ["admins", "tools"];
            && keys[..|named|] == named
            && forall i, j :: 0 <= i < j < |keys| ==> keys[i] != keys[j]
  {
    var keys := named + ["admins", "tools"];
    assert keys[..|named|] == named;
    forall i, j | 0 <= i < j < |keys|
      ensures keys[i] != keys[j]
    {
      if j < |named| {
        assert keys[i] == named[i] && keys[j] == named[j];
      } else if i < |named| {
        assert keys[i] == named[i] && keys[i] in named;
        assert keys[j] == "admins" || keys[j] == "tools";
      } else {
        assert keys[i] == "admins" && keys[j] == "tools";
      }
    }
  }

  /** What the key listing needs of the names of distinct parameters. */
  lemma KeysOfTable(taken: seq<Param>)
    requires forall i, j :: 0 <= i < j < |taken| ==> taken[i] != taken[j]
    ensures forall i, j :: 0 <= i < j < |taken| ==> Names(taken)[i] != Names(taken)[j]
    ensures forall p :: p in taken ==> Name(p) in Names(taken)
    ensures forall k :: k in Names(taken) ==> Lookup(k).Some? && k != "admins" && k != "tools"
  {
    var names := Names(taken);
    forall i, j | 0 <= i < j < |taken|
      ensures names[i] != names[j]
    {
      NamesAt(taken, i);
      NamesAt(taken, j);
      if names[i] == names[j] {
        NamesAreDistinct(taken[i], taken[j]);
      }
    }
    forall p | p in taken
      ensures Name(p) in names
    {
      var i :| 0 <= i < |taken| && taken[i] == p;
      NamesAt(taken, i);
    }
    forall k | k in names
      ensures Lookup(k).Some? && k != "admins" && k != "tools"
    {
      var i :| 0 <= i < |names| && names[i] == k;
      NamesAt(taken, i);
      LookupName(taken[i]);
      ExtraKeysAreNotParameters(taken[i]);
    }
  }

  class Configuration {
    var bot: BotConfig
    var model: ModelConfig
    var api: APIConfig
    var session: SessionConfig

    constructor (s: Settings)
      ensures Snapshot() == s
    {
      bot, model, api, session := s.bot, s.model, s.api, s.session;
    }

    /** The current value of every field. */
    function Snapshot(): Settings
      reads this
    {
      Settings(bot, model, api, session)
    }

    /** Run the setter of `p`: parse `value` and assign its field, or reject the text. */
    method SetField(p: Param, value: string, parses: ForeignParses) returns (r: SetOutcome)
      modifies this
      ensures r == ApplyParam(old(Snapshot()), p, value, parses)
      ensures Snapshot() == if r.Applied? then r.settings else old(Snapshot())
    {
      r := ApplyParam(Snapshot(), p, value, parses);
      match p
      case BoolField(b) =>
        var parsed := ParseBool(value);
        if parsed.Some? {
          match b
          case Addressed => bot := bot.(addressed := parsed.value);
          case Thinking => model := model.(thinking := parsed.value);
          case ShowThinkingAction => bot := bot.(showThinkingAction := parsed.value);
          case ShowToolActions => bot := bot.(showToolActions := parsed.value);
          case URLWatcher => bot := bot.(urlWatcher := parsed.value);
        }
      case IntField(i) =>
        var parsed := Atoi(value);
        if parsed.Some? {
          match i
          case MaxTokens => model := model.(maxTokens := parsed.value);
          case SessionHistory => session := session.(maxHistory := parsed.value);
          case ChunkMax => session := session.(chunkMax := parsed.value);
        }
      case TextField(t) =>
        match t {
          case Prompt => bot := bot.(prompt := value);
        case Model => model := model.(model := value);
        case OpenAIURL => api := api.(openAIURL := value);
        case OllamaURL => api := api.(ollamaURL := value);
        case OllamaKey => api := api.(ollamaKey := value);
        case OpenAIKey => api := api.(openAIKey := value);
        case AnthropicKey => api := api.(anthropicKey := value);
        case GeminiKey => api := api.(geminiKey := value);
        }
      case FloatField(f) =>
        if parses.float.Some? {
          var x := parses.float.value;
          if f == Temperature {
            model := model.(temperature := x);
          } else if 0.0 <= x <= 1.0 {
            model := model.(topP := x);
          }
        }
      case DurationField(d) =>
        if parses.duration.Some? {
          if d == SessionDuration {
            session := session.(ttl := parses.duration.value);
          } else {
            api := api.(timeout := parses.duration.value);
          }
        }
    }
  }
}
