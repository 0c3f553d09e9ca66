// Normalising a JSON-RPC request (crates/harnx-a2a-server/src/compat.rs): legacy method names,
// `blocking`, and enum spellings. JSON values are immutable here; member order is not modelled.
module Compat {
  import opened Options

  datatype Json =
    | Null | Bool(flag: bool) | Number(value: real) | Str(text: string) | Arr(items: seq<Json>)
    | Obj(fields: map<string, Json>)

  datatype Error = BlockingNotBoolean | ImmediateNotBoolean | BlockingConflicts | InvalidParams

  datatype Result<+T> = Ok(value: T) | Err(error: Error)

  const METHOD_ALIASES: map<string, string> := map[
    "message/send" := "SendMessage",
    "message/stream" := "SendStreamingMessage",
    "tasks/get" := "GetTask",
    "tasks/cancel" := "CancelTask",
    "tasks/resubscribe" := "SubscribeToTask",
    "tasks/pushNotificationConfig/set" := "CreateTaskPushNotificationConfig",
    "tasks/pushNotificationConfig/get" := "GetTaskPushNotificationConfig",
    "tasks/pushNotificationConfig/list" := "ListTaskPushNotificationConfigs",
    "tasks/pushNotificationConfig/delete" := "DeleteTaskPushNotificationConfig"
  ]

  const ROLES: seq<string> := ["UNSPECIFIED", "USER", "AGENT"]
  const TASK_STATES: seq<string> := [
    "UNSPECIFIED", "SUBMITTED", "WORKING", "COMPLETED", "FAILED", "CANCELED", "INPUT_REQUIRED", "REJECTED",
    "AUTH_REQUIRED"
  ]

  function Member(value: Json, key: string): Option<Json> {
    if value.Obj? && key in value.fields then Some(value.fields[key]) else None
  }

  function WithMember(value: Json, key: string, member: Json): Json
    requires value.Obj?
  {
    Obj(value.fields[key := member])
  }

  function CanonicalMethod(name: string): string {
    if name in METHOD_ALIASES then METHOD_ALIASES[name] else name
  }

  // ----- blocking -----

  // The immediate flags, in the order they are looked at.
  const IMMEDIATE: seq<string> := ["returnImmediately", "return_immediately"]

  // What is wrong with one immediate flag next to `blocking`.
  function ImmediateFault(configuration: map<string, Json>, key: string, blocking: bool): Option<Error> {
    if key !in configuration then None
    else if !configuration[key].Bool? then Some(ImmediateNotBoolean)
    else if configuration[key].flag == blocking then Some(BlockingConflicts)
    else None
  }

  function Blocking(configuration: map<string, Json>): Result<map<string, Json>> {
    if "blocking" !in configuration then Ok(configuration)
    else if !configuration["blocking"].Bool? then Err(BlockingNotBoolean)
    else
      var blocking := configuration["blocking"].flag;
      var camel := ImmediateFault(configuration, IMMEDIATE[0], blocking);
      var snake := ImmediateFault(configuration, IMMEDIATE[1], blocking);
      if camel.Some? then Err(camel.value)
      else if snake.Some? then Err(snake.value)
      else Ok((configuration - {"blocking", "return_immediately"})["returnImmediately" := Bool(!blocking)])
  }

  // normalize_blocking, on the map it owns.
  method NormalizeBlocking(input: map<string, Json>) returns (result: Result<map<string, Json>>)
    ensures result == Blocking(input)
  {
    if "blocking" !in input { return Ok(input); }
    var configuration := input - {"blocking"};
    if !input["blocking"].Bool? { return Err(BlockingNotBoolean); }
    var blocking := input["blocking"].flag;
    for i := 0 to |IMMEDIATE|
      invariant forall k :: 0 <= k < i ==> ImmediateFault(input, IMMEDIATE[k], blocking) == None
    {
      if IMMEDIATE[i] in configuration {
        var immediate := configuration[IMMEDIATE[i]];
        if !immediate.Bool? { return Err(ImmediateNotBoolean); }
        if immediate.flag == blocking { return Err(BlockingConflicts); }
      }
    }
    assert ImmediateFault(input, IMMEDIATE[0], blocking) == None;
    assert ImmediateFault(input, IMMEDIATE[1], blocking) == None;
    configuration := configuration - {"return_immediately"};
    configuration := configuration["returnImmediately" := Bool(!blocking)];
    result := Ok(configuration);
    assert configuration == Blocking(input).value;
  }

  // ----- Enums -----

  // `replace('-', "_").to_ascii_uppercase()`
  function Upper(text: string): (r: string)
    ensures |r| == |text|
    ensures forall i :: 0 <= i < |text| ==> r[i] == UpperChar(text[i])
  {
    seq(|text|, i requires 0 <= i < |text| => UpperChar(text[i]))
  }

  function UpperChar(c: char): char {
    if c == '-' then '_' else if 'a' <= c <= 'z' then c - 'a' + 'A' else c
  }

  function EnumName(text: string, prefix: string): string {
    var upper := Upper(text);
    if prefix <= upper then upper[|prefix|..] else upper
  }

  function Enum(value: Json, prefix: string, variants: seq<string>): Json {
    if value.Str? && EnumName(value.text, prefix) in variants then Str(prefix + EnumName(value.text, prefix)) else value
  }

  // ----- The request -----

  function Configured(params: Json): Result<Json> {
    var configuration := Member(params, "configuration");
    if configuration.None? || !configuration.value.Obj? then Ok(params)
    else
      var blocking := Blocking(configuration.value.fields);
      if blocking.Err? then Err(blocking.error) else Ok(WithMember(params, "configuration", Obj(blocking.value)))
  }

  function WithEnum(value: Json, key: string, prefix: string, variants: seq<string>): Json {
    if Member(value, key).Some? then WithMember(value, key, Enum(Member(value, key).value, prefix, variants)) else value
  }

  function WithRole(params: Json): Json {
    if Member(params, "message").Some?
    then WithMember(params, "message", WithEnum(Member(params, "message").value, "role", "ROLE_", ROLES))
    else params
  }

  // normalize_send_params
  function SendParams(params: Json): Result<Json> {
    var configured := Configured(params);
    if configured.Err? then configured else Ok(WithRole(configured.value))
  }

  function ListParams(params: Json): Json {
    WithEnum(params, "status", "TASK_STATE_", TASK_STATES)
  }

  function Params(name: string, params: Json): Result<Json> {
    if name == "SendMessage" || name == "SendStreamingMessage" then SendParams(params)
    else if name == "ListTasks" then Ok(ListParams(params))
    else Ok(params)
  }

  function MethodOf(request: Json): string {
    if Member(request, "method").Some? && Member(request, "method").value.Str?
    then Member(request, "method").value.text else ""
  }

  // process_payload up to serialisation: the params shape, then normalize_json.
  function Normalize(request: Json): Result<Json>
    requires request.Obj?
  {
    var name := CanonicalMethod(MethodOf(request));
    var named := WithMember(request, "method", Str(name));
    var params := Member(request, "params");
    if params.None? then Ok(named)
    else if !params.value.Obj? && !params.value.Arr? then Err(InvalidParams)
    else
      var normalized := Params(name, params.value);
      if normalized.Err? then Err(normalized.error) else Ok(WithMember(named, "params", normalized.value))
  }

  // ----- Idempotence -----

  lemma MethodIsCanonical(name: string)
    ensures CanonicalMethod(name) !in METHOD_ALIASES
    ensures CanonicalMethod(CanonicalMethod(name)) == CanonicalMethod(name)
  {}

  lemma BlockingIsIdempotent(configuration: map<string, Json>)
    requires Blocking(configuration).Ok?
    ensures Blocking(Blocking(configuration).value) == Blocking(configuration)
  {}

  predicate Capitals(text: string) {
    forall i :: 0 <= i < |text| ==> 'A' <= text[i] <= 'Z' || text[i] == '_'
  }

  // The spellings an enum knows are in capitals.
  predicate Spelled(variants: seq<string>, prefix: string) {
    Capitals(prefix) && forall k :: 0 <= k < |variants| ==> Capitals(variants[k])
  }

  lemma KnownRoles()
    ensures Spelled(ROLES, "ROLE_")
  {}

  lemma KnownStates()
    ensures Spelled(TASK_STATES, "TASK_STATE_")
  {
    assert Capitals("TASK_STATE_") && Capitals("UNSPECIFIED") && Capitals("SUBMITTED") && Capitals("WORKING");
    assert Capitals("COMPLETED") && Capitals("FAILED") && Capitals("CANCELED") && Capitals("INPUT_REQUIRED");
    assert Capitals("REJECTED") && Capitals("AUTH_REQUIRED");
    forall k | 0 <= k < |TASK_STATES|
      ensures Capitals(TASK_STATES[k])
    {
      assert k == 0 || k == 1 || k == 2 || k == 3 || k == 4 || k == 5 || k == 6 || k == 7 || k == 8;
    }
  }

  lemma EnumIsIdempotent(value: Json, prefix: string, variants: seq<string>)
    requires Spelled(variants, prefix)
    ensures Enum(Enum(value, prefix, variants), prefix, variants) == Enum(value, prefix, variants)
  {}

  // Members are set one at a time, and the last one set counts.
  lemma MembersSet(value: Json, key: string, a: Json, b: Json)
    requires value.Obj?
    ensures WithMember(WithMember(value, key, a), key, b) == WithMember(value, key, b)
    ensures Member(value, key) == Some(a) ==> WithMember(value, key, a) == value
  {}

  lemma WithEnumIsIdempotent(value: Json, key: string, prefix: string, variants: seq<string>)
    requires Spelled(variants, prefix)
    ensures WithEnum(WithEnum(value, key, prefix, variants), key, prefix, variants)
         == WithEnum(value, key, prefix, variants)
  {
    if Member(value, key).Some? {
      var once := Enum(Member(value, key).value, prefix, variants);
      EnumIsIdempotent(Member(value, key).value, prefix, variants);
      MembersSet(value, key, once, once);
    }
  }

  lemma WithRoleIsIdempotent(params: Json)
    ensures WithRole(WithRole(params)) == WithRole(params)
  {
    if Member(params, "message").Some? {
      KnownRoles();
      var message := Member(params, "message").value;
      var once := WithEnum(message, "role", "ROLE_", ROLES);
      WithEnumIsIdempotent(message, "role", "ROLE_", ROLES);
      MembersSet(params, "message", once, once);
    }
  }

  lemma ConfiguredIsIdempotent(params: Json)
    requires Configured(params).Ok?
    ensures Configured(Configured(params).value) == Configured(params)
  {
    var configuration := Member(params, "configuration");
    if configuration.Some? && configuration.value.Obj? {
      BlockingIsIdempotent(configuration.value.fields);
      var once := Obj(Blocking(configuration.value.fields).value);
      MembersSet(params, "configuration", once, once);
    }
  }

  // The role does not come into how a configuration is read.
  lemma RoleLeavesConfiguration(params: Json)
    ensures Member(WithRole(params), "configuration") == Member(params, "configuration")
    ensures Configured(params) == Ok(params) ==> Configured(WithRole(params)) == Ok(WithRole(params))
  {
    assert "configuration" != "message" by { assert |"configuration"| != |"message"|; }
    if Configured(params) == Ok(params) && WithRole(params).Obj? {
      var configuration := Member(params, "configuration");
      if configuration.Some? && configuration.value.Obj? {
        var once := Obj(Blocking(configuration.value.fields).value);
        assert Member(WithMember(params, "configuration", once), "configuration") == Some(once);
        MembersSet(WithRole(params), "configuration", once, once);
      }
    }
  }

  lemma SendIsIdempotent(params: Json)
    requires SendParams(params).Ok?
    ensures SendParams(SendParams(params).value) == SendParams(params)
  {
    var configured := Configured(params).value;
    ConfiguredIsIdempotent(params);
    RoleLeavesConfiguration(configured);
    WithRoleIsIdempotent(configured);
  }

  lemma ParamsAreIdempotent(name: string, params: Json)
    requires Params(name, params).Ok?
    ensures Params(name, Params(name, params).value) == Params(name, params)
    ensures Params(name, params).value.Obj? <==> params.Obj?
    ensures Params(name, params).value.Arr? <==> params.Arr?
  {
    if name == "SendMessage" || name == "SendStreamingMessage" {
      SendIsIdempotent(params);
    } else if name == "ListTasks" {
      KnownStates();
      WithEnumIsIdempotent(params, "status", "TASK_STATE_", TASK_STATES);
    }
  }

  // Normalising what has been normalised changes nothing.
  lemma NormalizeIsIdempotent(request: Json)
    requires request.Obj? && Normalize(request).Ok?
    ensures Normalize(request).value.Obj? && Normalize(Normalize(request).value) == Normalize(request)
  {
    var name := CanonicalMethod(MethodOf(request));
    MethodIsCanonical(MethodOf(request));
    assert "params" != "method" by { assert "params"[0] != "method"[0]; }
    var named := WithMember(request, "method", Str(name));
    MembersSet(named, "method", Str(name), Str(name));
    if Member(request, "params").Some? {
      var params := Params(name, Member(request, "params").value).value;
      ParamsAreIdempotent(name, Member(request, "params").value);
      var once := WithMember(named, "params", params);
      MembersSet(named, "params", params, params);
      MembersSet(once, "method", Str(name), Str(name));
      MembersSet(once, "params", params, params);
    }
  }

  // ----- Blocking intent -----

  // Whether the caller wants to wait for the task, if the configuration says.
  function Intent(configuration: map<string, Json>): Option<bool> {
    if "blocking" in configuration && configuration["blocking"].Bool? then Some(configuration["blocking"].flag)
    else if "returnImmediately" in configuration && configuration["returnImmediately"].Bool?
    then Some(!configuration["returnImmediately"].flag)
    else if "return_immediately" in configuration && configuration["return_immediately"].Bool?
    then Some(!configuration["return_immediately"].flag)
    else None
  }

  // `blocking` is a boolean and each immediate flag given says its opposite.
  ghost predicate Consistent(configuration: map<string, Json>)
    requires "blocking" in configuration
  {
    && configuration["blocking"].Bool?
    && forall key :: key in IMMEDIATE && key in configuration ==>
         configuration[key] == Bool(!configuration["blocking"].flag)
  }

  // What an accepted configuration asks for is kept and said in one way; one is refused exactly when
  // `blocking` is no boolean or an immediate flag does not say the opposite.
  lemma BlockingKeepsIntent(configuration: map<string, Json>)
    ensures var result := Blocking(configuration);
      && (result.Err? <==> "blocking" in configuration && !Consistent(configuration))
      && (result.Ok? ==> Intent(result.value) == Intent(configuration) && "blocking" !in result.value)
      && (result.Ok? && "blocking" in configuration ==> "return_immediately" !in result.value)
      && (result.Ok? ==> forall key :: key !in IMMEDIATE && key != "blocking" ==>
            Member(Obj(result.value), key) == Member(Obj(configuration), key))
  {}

  predicate IsSend(name: string) {
    name == "SendMessage" || name == "SendStreamingMessage"
  }

  lemma KeysDiffer()
    ensures "method" != "params" && "configuration" != "message"
  {}

  // ----- Legacy and canonical spellings -----

  // A character as it may stand for one of an enum's: in either case, a dash for an underscore.
  predicate Looks(c: char, canonical: char) {
    || c == canonical
    || ('A' <= canonical <= 'Z' && c as int == canonical as int + 32)
    || (canonical == '_' && c == '-')
  }

  predicate Spells(text: string, canonical: string) {
    |text| == |canonical| && forall i :: 0 <= i < |text| ==> Looks(text[i], canonical[i])
  }

  // The enum value `name` as clients write it, with or without its prefix.
  predicate Names(text: string, prefix: string, name: string) {
    Spells(text, name) || Spells(text, prefix + name)
  }

  lemma SpellsUpper(text: string, canonical: string)
    requires Capitals(canonical)
    ensures Spells(text, canonical) <==> Upper(text) == canonical
  {
    if Spells(text, canonical) {
      forall i | 0 <= i < |text|
        ensures Upper(text)[i] == canonical[i]
      {
        assert Looks(text[i], canonical[i]);
      }
    }
    if Upper(text) == canonical {
      forall i | 0 <= i < |text|
        ensures Looks(text[i], canonical[i])
      {
        assert UpperChar(text[i]) == canonical[i];
      }
    }
  }

  // No value's name begins with the prefix, so a spelling names one value.
  predicate Plain(variants: seq<string>, prefix: string) {
    prefix != "" && Spelled(variants, prefix) && forall v :: v in variants ==> v != "" && v[0] != prefix[0]
  }

  lemma PlainRoles()
    ensures Plain(ROLES, "ROLE_")
  {
    KnownRoles();
  }

  lemma PlainStates()
    ensures Plain(TASK_STATES, "TASK_STATE_")
  {
    KnownStates();
    assert forall k :: 0 <= k < |TASK_STATES| ==> TASK_STATES[k] != "" && TASK_STATES[k][0] != 'T';
  }

  // A text that names a value becomes that value's one canonical spelling; any other stays.
  lemma EnumSpec(text: string, prefix: string, variants: seq<string>, name: string)
    requires Plain(variants, prefix) && name in variants
    ensures Names(text, prefix, name) ==> Enum(Str(text), prefix, variants) == Str(prefix + name)
    ensures (forall v :: v in variants ==> !Names(text, prefix, v)) ==> Enum(Str(text), prefix, variants) == Str(text)
  {
    NamesUpper(text, prefix, variants, name);
    var found := EnumName(text, prefix);
    if found in variants {
      NamesUpper(text, prefix, variants, found);
      assert prefix <= Upper(text) ==> Upper(text) == prefix + found;
    }
  }

  lemma NamesUpper(text: string, prefix: string, variants: seq<string>, name: string)
    requires Plain(variants, prefix) && name in variants
    ensures Names(text, prefix, name) <==> Upper(text) == name || Upper(text) == prefix + name
    ensures Names(text, prefix, name) ==> EnumName(text, prefix) == name
  {
    assert Capitals(name);
    SpellsUpper(text, name);
    assert Capitals(prefix + name);
    SpellsUpper(text, prefix + name);
    assert name[0] != prefix[0];
    assert (prefix + name)[|prefix|..] == name;
  }

  // A value in a request: the same on both sides, or the same enum value in two spellings.
  predicate EnumRespelled(legacy: Option<Json>, canonical: Option<Json>, prefix: string, variants: seq<string>) {
    || legacy == canonical
    || (legacy.Some? && canonical.Some? && legacy.value.Str?
        && exists name :: name in variants && Names(legacy.value.text, prefix, name)
                          && canonical.value == Str(prefix + name))
  }

  lemma EnumsAgree(legacy: Option<Json>, canonical: Option<Json>, prefix: string, variants: seq<string>)
    requires Plain(variants, prefix) && EnumRespelled(legacy, canonical, prefix, variants)
    ensures legacy.Some? <==> canonical.Some?
    ensures legacy.Some? ==> Enum(legacy.value, prefix, variants) == Enum(canonical.value, prefix, variants)
  {
    if legacy != canonical {
      var name :| name in variants && Names(legacy.value.text, prefix, name) && canonical.value == Str(prefix + name);
      EnumSpec(legacy.value.text, prefix, variants, name);
      SpellsItself(prefix + name);
      EnumSpec(prefix + name, prefix, variants, name);
    }
  }

  lemma SpellsItself(text: string)
    ensures Spells(text, text)
  {}

  // Everything but the members in `keys` is the same.
  ghost predicate SameBut(a: Json, b: Json, keys: set<string>) {
    a.Obj? && b.Obj? && forall key :: key !in keys ==> Member(a, key) == Member(b, key)
  }

  // `blocking: b`, with or without immediate flags that agree, against `returnImmediately: !b`.
  ghost predicate BlockingRespelled(legacy: Json, canonical: Json, b: bool) {
    && SameBut(legacy, canonical, {"blocking", "returnImmediately", "return_immediately"})
    && Member(legacy, "blocking") == Some(Bool(b))
    && Member(legacy, "returnImmediately") in {None, Some(Bool(!b))}
    && Member(legacy, "return_immediately") in {None, Some(Bool(!b))}
    && Member(canonical, "blocking") == None && Member(canonical, "return_immediately") == None
    && Member(canonical, "returnImmediately") == Some(Bool(!b))
  }

  ghost predicate ConfigurationRespelled(legacy: Option<Json>, canonical: Option<Json>) {
    || legacy == canonical
    || (legacy.Some? && canonical.Some? && exists b :: BlockingRespelled(legacy.value, canonical.value, b))
  }

  ghost predicate MessageRespelled(legacy: Option<Json>, canonical: Option<Json>) {
    || legacy == canonical
    || (legacy.Some? && canonical.Some? && SameBut(legacy.value, canonical.value, {"role"})
        && EnumRespelled(Member(legacy.value, "role"), Member(canonical.value, "role"), "ROLE_", ROLES))
  }

  ghost predicate ParamsRespelled(name: string, legacy: Option<Json>, canonical: Option<Json>) {
    || legacy == canonical
    || (legacy.Some? && canonical.Some? &&
        if IsSend(name) then
          && SameBut(legacy.value, canonical.value, {"configuration", "message"})
          && ConfigurationRespelled(Member(legacy.value, "configuration"), Member(canonical.value, "configuration"))
          && MessageRespelled(Member(legacy.value, "message"), Member(canonical.value, "message"))
        else
          && name == "ListTasks" && SameBut(legacy.value, canonical.value, {"status"})
          && EnumRespelled(Member(legacy.value, "status"), Member(canonical.value, "status"), "TASK_STATE_",
              TASK_STATES))
  }

  // One request in legacy spelling and one in canonical spelling, in any or all of the respects that
  // differ: the method name, the send configuration, the message role, the list status.
  ghost predicate Respelled(legacy: Json, canonical: Json) {
    && SameBut(legacy, canonical, {"method", "params"})
    && Member(legacy, "method").Some? && Member(legacy, "method").value.Str?
    && Member(canonical, "method").Some? && Member(canonical, "method").value.Str?
    && var (alias, name) := (MethodOf(legacy), MethodOf(canonical));
       (alias == name || (alias in METHOD_ALIASES && METHOD_ALIASES[alias] == name))
       && ParamsRespelled(CanonicalMethod(name), Member(legacy, "params"), Member(canonical, "params"))
  }

  lemma SameMembers(a: Json, b: Json)
    requires a.Obj? && b.Obj? && forall key :: Member(a, key) == Member(b, key)
    ensures a == b
  {
    assert forall key :: key in a.fields <==> Member(a, key).Some?;
    assert forall key :: key in b.fields <==> Member(b, key).Some?;
    assert a.fields == b.fields by {
      forall key | key in a.fields
        ensures key in b.fields && a.fields[key] == b.fields[key]
      {
        assert Member(a, key) == Member(b, key);
      }
      forall key | key in b.fields
        ensures key in a.fields
      {
        assert Member(a, key) == Member(b, key);
      }
    }
  }

  lemma BlockingsAgree(legacy: Json, canonical: Json, b: bool)
    requires BlockingRespelled(legacy, canonical, b)
    ensures Blocking(legacy.fields) == Ok(canonical.fields) && Blocking(canonical.fields) == Ok(canonical.fields)
  {
    var rewritten := (legacy.fields - {"blocking", "return_immediately"})["returnImmediately" := Bool(!b)];
    BlockingAccepts(legacy, b);
    forall key
      ensures Member(Obj(rewritten), key) == Member(canonical, key)
    {
      if key !in {"blocking", "returnImmediately", "return_immediately"} {
        assert Member(legacy, key) == Member(canonical, key);
      }
    }
    SameMembers(Obj(rewritten), canonical);
  }

  lemma BlockingAccepts(legacy: Json, b: bool)
    requires legacy.Obj? && Member(legacy, "blocking") == Some(Bool(b))
    requires Member(legacy, "returnImmediately") in {None, Some(Bool(!b))}
    requires Member(legacy, "return_immediately") in {None, Some(Bool(!b))}
    ensures Blocking(legacy.fields)
         == Ok((legacy.fields - {"blocking", "return_immediately"})["returnImmediately" := Bool(!b)])
  {}

  // What normalisation makes of the two members of send params it looks at.
  function ConfigurationOf(configuration: Option<Json>): Result<Option<Json>> {
    if configuration.None? || !configuration.value.Obj? then Ok(configuration)
    else
      var blocking := Blocking(configuration.value.fields);
      if blocking.Err? then Err(blocking.error) else Ok(Some(Obj(blocking.value)))
  }

  function MessageOf(message: Option<Json>): Option<Json> {
    if message.None? then None else Some(WithEnum(message.value, "role", "ROLE_", ROLES))
  }

  lemma SendMembers(params: Json, key: string)
    requires params.Obj?
    ensures var c := ConfigurationOf(Member(params, "configuration"));
      match SendParams(params)
      case Err(error) => c == Err(error)
      case Ok(value) =>
        && value.Obj? && c.Ok?
        && Member(value, key) ==
             if key == "configuration" then c.value
             else if key == "message" then MessageOf(Member(params, "message"))
             else Member(params, key)
  {
    KeysDiffer();
  }

  lemma SendsAgree(legacy: Json, canonical: Json)
    requires SameBut(legacy, canonical, {"configuration", "message"})
    requires ConfigurationOf(Member(legacy, "configuration")) == ConfigurationOf(Member(canonical, "configuration"))
    requires MessageOf(Member(legacy, "message")) == MessageOf(Member(canonical, "message"))
    ensures SendParams(legacy) == SendParams(canonical)
  {
    SendMembers(legacy, "");
    SendMembers(canonical, "");
    if SendParams(legacy).Ok? {
      forall key
        ensures Member(SendParams(legacy).value, key) == Member(SendParams(canonical).value, key)
      {
        SendMembers(legacy, key);
        SendMembers(canonical, key);
      }
      SameMembers(SendParams(legacy).value, SendParams(canonical).value);
    }
  }

  lemma ConfigurationsAgree(legacy: Option<Json>, canonical: Option<Json>)
    requires ConfigurationRespelled(legacy, canonical)
    ensures ConfigurationOf(legacy) == ConfigurationOf(canonical)
  {
    if legacy != canonical {
      var b :| BlockingRespelled(legacy.value, canonical.value, b);
      BlockingsAgree(legacy.value, canonical.value, b);
    }
  }

  // Two objects that differ in one enum member's spelling only.
  lemma WithEnumsAgree(legacy: Json, canonical: Json, member: string, prefix: string, variants: seq<string>)
    requires Plain(variants, prefix) && SameBut(legacy, canonical, {member})
    requires EnumRespelled(Member(legacy, member), Member(canonical, member), prefix, variants)
    ensures WithEnum(legacy, member, prefix, variants) == WithEnum(canonical, member, prefix, variants)
  {
    EnumsAgree(Member(legacy, member), Member(canonical, member), prefix, variants);
    var a, b := WithEnum(legacy, member, prefix, variants), WithEnum(canonical, member, prefix, variants);
    forall key
      ensures Member(a, key) == Member(b, key)
    {
      if key != member { assert Member(legacy, key) == Member(canonical, key); }
    }
    SameMembers(a, b);
  }

  lemma MessagesAgree(legacy: Option<Json>, canonical: Option<Json>)
    requires MessageRespelled(legacy, canonical)
    ensures MessageOf(legacy) == MessageOf(canonical)
  {
    if legacy != canonical {
      PlainRoles();
      WithEnumsAgree(legacy.value, canonical.value, "role", "ROLE_", ROLES);
    }
  }

  lemma ParamsAgree(name: string, legacy: Option<Json>, canonical: Option<Json>)
    requires ParamsRespelled(name, legacy, canonical)
    ensures legacy.Some? <==> canonical.Some?
    ensures legacy.Some? && legacy != canonical ==> legacy.value.Obj? && canonical.value.Obj?
    ensures legacy.Some? ==> Params(name, legacy.value) == Params(name, canonical.value)
  {
    if legacy != canonical {
      if IsSend(name) {
        ConfigurationsAgree(Member(legacy.value, "configuration"), Member(canonical.value, "configuration"));
        MessagesAgree(Member(legacy.value, "message"), Member(canonical.value, "message"));
        SendsAgree(legacy.value, canonical.value);
      } else {
        PlainStates();
        WithEnumsAgree(legacy.value, canonical.value, "status", "TASK_STATE_", TASK_STATES);
      }
    }
  }

  // A legacy request and its canonical form come out the same, whatever respects it is legacy in.
  lemma LegacyMeansCanonical(legacy: Json, canonical: Json)
    requires Respelled(legacy, canonical)
    ensures Normalize(legacy) == Normalize(canonical)
  {
    KeysDiffer();
    var name := CanonicalMethod(MethodOf(canonical));
    MethodIsCanonical(MethodOf(legacy));
    assert CanonicalMethod(MethodOf(legacy)) == name;
    var p, q := Member(legacy, "params"), Member(canonical, "params");
    ParamsAgree(name, p, q);
    if Normalize(legacy).Ok? && Normalize(canonical).Ok? {
      NormalizedAgree(legacy, canonical);
    }
  }

  lemma NormalizedAgree(legacy: Json, canonical: Json)
    requires SameBut(legacy, canonical, {"method", "params"}) && Normalize(legacy).Ok? && Normalize(canonical).Ok?
    requires CanonicalMethod(MethodOf(legacy)) == CanonicalMethod(MethodOf(canonical))
    requires Member(legacy, "params").Some? <==> Member(canonical, "params").Some?
    requires var name := CanonicalMethod(MethodOf(canonical)); Member(legacy, "params").Some? ==>
      Params(name, Member(legacy, "params").value) == Params(name, Member(canonical, "params").value)
    ensures Normalize(legacy) == Normalize(canonical)
  {
    KeysDiffer();
    var a, b := Normalize(legacy).value, Normalize(canonical).value;
    forall key
      ensures Member(a, key) == Member(b, key)
    {
      if key != "method" && key != "params" { assert Member(legacy, key) == Member(canonical, key); }
    }
    SameMembers(a, b);
  }

  // And the canonical form is what comes out: a request already in canonical spelling stays as it is.
  predicate EnumIsCanonical(value: Option<Json>, prefix: string, variants: seq<string>) {
    value.None? || !value.value.Str? || (exists name :: name in variants && value.value.text == prefix + name)
    || forall name :: name in variants ==> !Names(value.value.text, prefix, name)
  }

  predicate IsCanonical(request: Json) {
    && request.Obj? && Member(request, "method").Some? && Member(request, "method").value.Str?
    && MethodOf(request) !in METHOD_ALIASES
    && (Member(request, "params").Some? ==>
          var params := Member(request, "params").value;
          && (params.Obj? || params.Arr?)
          && (IsSend(MethodOf(request)) ==>
                && (Member(params, "configuration").Some? ==>
                    Member(Member(params, "configuration").value, "blocking").None?)
                && (Member(params, "message").Some? ==>
                      EnumIsCanonical(Member(Member(params, "message").value, "role"), "ROLE_", ROLES)))
          && (MethodOf(request) == "ListTasks" ==>
                EnumIsCanonical(Member(params, "status"), "TASK_STATE_", TASK_STATES)))
  }

  lemma CanonicalEnumStays(value: Option<Json>, prefix: string, variants: seq<string>)
    requires Plain(variants, prefix) && variants != [] && EnumIsCanonical(value, prefix, variants)
    ensures value.Some? ==> Enum(value.value, prefix, variants) == value.value
  {
    if value.Some? && value.value.Str? {
      if name :| name in variants && value.value.text == prefix + name {
        SpellsItself(prefix + name);
        EnumSpec(prefix + name, prefix, variants, name);
      } else {
        assert variants[0] in variants;
        EnumSpec(value.value.text, prefix, variants, variants[0]);
      }
    }
  }

  lemma CanonicalMemberStays(value: Json, key: string, prefix: string, variants: seq<string>)
    requires Plain(variants, prefix) && variants != []
    requires EnumIsCanonical(Member(value, key), prefix, variants)
    ensures WithEnum(value, key, prefix, variants) == value
  {
    CanonicalEnumStays(Member(value, key), prefix, variants);
    if Member(value, key).Some? { MembersSet(value, key, Member(value, key).value, Member(value, key).value); }
  }

  lemma CanonicalParamsStay(name: string, params: Json)
    requires IsSend(name) ==>
               && (Member(params, "configuration").Some? ==>
                   Member(Member(params, "configuration").value, "blocking").None?)
               && (Member(params, "message").Some? ==>
                     EnumIsCanonical(Member(Member(params, "message").value, "role"), "ROLE_", ROLES))
    requires name == "ListTasks" ==> EnumIsCanonical(Member(params, "status"), "TASK_STATE_", TASK_STATES)
    ensures Params(name, params) == Ok(params)
  {
    if IsSend(name) {
      var configuration, message := Member(params, "configuration"), Member(params, "message");
      if configuration.Some? { MembersSet(params, "configuration", configuration.value, configuration.value); }
      if message.Some? {
        PlainRoles();
        CanonicalMemberStays(message.value, "role", "ROLE_", ROLES);
        MembersSet(params, "message", message.value, message.value);
      }
    } else if name == "ListTasks" {
      PlainStates();
      CanonicalMemberStays(params, "status", "TASK_STATE_", TASK_STATES);
    }
  }

  lemma CanonicalStays(request: Json)
    requires IsCanonical(request)
    ensures Normalize(request) == Ok(request)
  {
    KeysDiffer();
    var name := Member(request, "method").value;
    MembersSet(request, "method", name, name);
    if Member(request, "params").Some? {
      var params := Member(request, "params").value;
      CanonicalParamsStay(MethodOf(request), params);
      MembersSet(request, "params", params, params);
    }
  }

  // ----- What stays unchanged -----

  function At(value: Json, path: seq<string>): Option<Json> {
    if path == [] then Some(value)
    else if Member(value, path[0]).None? then None
    else At(Member(value, path[0]).value, path[1..])
  }

  predicate BlockingKey(key: string) {
    key == "blocking" || key in IMMEDIATE
  }

  // A path into the params that leads neither to nor over anything a method's normalisation sets.
  predicate OutsideParams(name: string, path: seq<string>) {
    if IsSend(name) then
      && path != []
      && (path[0] == "configuration" ==> |path| > 1 && !BlockingKey(path[1]))
      && (path[0] == "message" ==> |path| > 1 && path[1] != "role")
    else if name == "ListTasks" then path != [] && path[0] != "status"
    else true
  }

  predicate Outside(name: string, path: seq<string>) {
    path != [] && path[0] != "method" && (path[0] == "params" ==> OutsideParams(name, path[1..]))
  }

  lemma ConfigurationUnchanged(params: Json, path: seq<string>)
    requires Configured(params).Ok? && path != []
    requires path[0] == "configuration" ==> |path| > 1 && !BlockingKey(path[1])
    ensures At(Configured(params).value, path) == At(params, path)
  {}

  lemma RoleUnchanged(params: Json, path: seq<string>)
    requires path != [] && (path[0] == "message" ==> |path| > 1 && path[1] != "role")
    ensures At(WithRole(params), path) == At(params, path)
  {}

  // Everything outside the method, the send configuration's blocking keys, the message role and the
  // list status is as it was.
  lemma NormalizeFrame(request: Json, path: seq<string>)
    requires request.Obj? && Normalize(request).Ok?
    requires Outside(CanonicalMethod(MethodOf(request)), path)
    ensures At(Normalize(request).value, path) == At(request, path)
  {
    KeysDiffer();
    var name := CanonicalMethod(MethodOf(request));
    if path[0] == "params" && Member(request, "params").Some? {
      var params := Member(request, "params").value;
      if IsSend(name) {
        ConfigurationUnchanged(params, path[1..]);
        RoleUnchanged(Configured(params).value, path[1..]);
      }
      assert At(Params(name, params).value, path[1..]) == At(params, path[1..]);
    }
  }

  // An accepted send request still says whether its caller waits.
  lemma NormalizeKeepsIntent(request: Json, params: Json, configuration: map<string, Json>)
    requires request.Obj? && Normalize(request).Ok? && IsSend(CanonicalMethod(MethodOf(request)))
    requires Member(request, "params") == Some(params) && Member(params, "configuration") == Some(Obj(configuration))
    ensures Blocking(configuration).Ok? && Intent(Blocking(configuration).value) == Intent(configuration)
    ensures Member(Normalize(request).value, "params").Some?
    ensures Member(Member(Normalize(request).value, "params").value, "configuration")
         == Some(Obj(Blocking(configuration).value))
  {}

  // Why a request is refused: its params are neither an object nor a list, or it is a send whose
  // configuration contradicts itself.
  ghost predicate Contradicts(params: Json) {
    var configuration := Member(params, "configuration");
    && configuration.Some? && configuration.value.Obj?
    && "blocking" in configuration.value.fields && !Consistent(configuration.value.fields)
  }

  lemma NormalizeRefusesExactly(request: Json)
    requires request.Obj?
    ensures var params := Member(request, "params");
      && (Normalize(request) == Err(InvalidParams) <==> params.Some? && !params.value.Obj? && !params.value.Arr?)
      && (Normalize(request).Err? && Normalize(request) != Err(InvalidParams) <==>
            IsSend(CanonicalMethod(MethodOf(request))) && params.Some? && Contradicts(params.value))
  {
    var params := Member(request, "params");
    if params.Some? {
      SendRefusesExactly(params.value);
    }
  }

  lemma SendRefusesExactly(params: Json)
    ensures SendParams(params).Err? <==> Contradicts(params)
    ensures SendParams(params) != Err(InvalidParams)
  {
    var configuration := Member(params, "configuration");
    if configuration.Some? && configuration.value.Obj? {
      BlockingKeepsIntent(configuration.value.fields);
    }
  }
}
