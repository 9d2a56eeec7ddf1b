/** Validation of connection settings, and the reader that the BullMQ adapter applies to the result. */
module Config {
  import opened Text

  datatype Json = Str(value: string) | NotAString

  type Settings = map<string, Json>

  datatype Url = Url(scheme: string, host: string)

  /** `url.Parse`, left open; and `unicode.IsSpace`, left open. */
  datatype Env = Env(parse: string -> Option<Url>, space: char -> bool)

  const DEFAULT_PREFIX := "bull"
  const DEFAULT_REDIS_URL := "redis://localhost:6379"

  function RequiredString(env: Env, raw: Settings, key: string): Result<string> {
    if key !in raw || !raw[key].Str? || TrimSpace(env.space, raw[key].value) == "" then
      Err("config " + key + " is required")
    else Ok(TrimSpace(env.space, raw[key].value))
  }

  function OptionalString(env: Env, raw: Settings, key: string, fallback: string): string {
    if key !in raw || !raw[key].Str? || TrimSpace(env.space, raw[key].value) == "" then fallback
    else TrimSpace(env.space, raw[key].value)
  }

  predicate ValidUrl(env: Env, url: string, schemes: set<string>) {
    match env.parse(url) case None => false case Some(u) => u.scheme in schemes && u.host != ""
  }

  function ValidateBullMQ(env: Env, raw: Settings): Result<Settings> {
    match RequiredString(env, raw, "redisUrl")
    case Err(e) => Err(e)
    case Ok(redisUrl) =>
      if !ValidUrl(env, redisUrl, {"redis", "rediss"}) then
        Err("bullmq config redisUrl must be a valid redis:// or rediss:// URL")
      else
        var prefix := OptionalString(env, raw, "prefix", "bull");
        if TrimSpace(env.space, prefix) == "" then Err("bullmq config prefix cannot be empty")
        else Ok(map["redisUrl" := Str(redisUrl), "prefix" := Str(prefix)])
  }

  function ValidateSQS(env: Env, raw: Settings): Result<Settings> {
    match RequiredString(env, raw, "region")
    case Err(e) => Err(e)
    case Ok(region) =>
      match RequiredString(env, raw, "queueUrl")
      case Err(e) => Err(e)
      case Ok(queueUrl) =>
        if !ValidUrl(env, queueUrl, {"https"}) then Err("sqs config queueUrl must be a valid https URL")
        else
          var profile := OptionalString(env, raw, "profile", "");
          var endpointUrl := OptionalString(env, raw, "endpointUrl", "");
          var config: Settings := map["region" := Str(region), "queueUrl" := Str(queueUrl)];
          var withProfile := if profile != "" then config["profile" := Str(profile)] else config;
          Ok(if endpointUrl != "" then withProfile["endpointUrl" := Str(endpointUrl)] else withProfile)
  }

  function ValidateRabbitMQ(env: Env, raw: Settings): Result<Settings> {
    match RequiredString(env, raw, "amqpUrl")
    case Err(e) => Err(e)
    case Ok(amqpUrl) =>
      if !ValidUrl(env, amqpUrl, {"amqp", "amqps"}) then
        Err("rabbitmq config amqpUrl must be a valid amqp:// or amqps:// URL")
      else
        var vhost := OptionalString(env, raw, "vhost", "/");
        if TrimSpace(env.space, vhost) == "" then Err("rabbitmq config vhost cannot be empty")
        else Ok(map["amqpUrl" := Str(amqpUrl), "vhost" := Str(vhost)])
  }

  function Validate(env: Env, provider: string, raw: Settings): Result<Settings> {
    if provider == "bullmq" then ValidateBullMQ(env, raw)
    else if provider == "sqs" then ValidateSQS(env, raw)
    else if provider == "rabbitmq" then ValidateRabbitMQ(env, raw)
    else Err("unsupported provider \"" + provider + "\"")
  }

  /** No character that begins or ends one of the defaults counts as white space. */
  predicate KeepsDefaults(env: Env) { !env.space('b') && !env.space('l') && !env.space('/') }

  lemma TrimmedStays(env: Env, raw: Settings, key: string, fallback: string)
    ensures var r := RequiredString(env, raw, key); r.Ok? ==> r.value != "" && TrimSpace(env.space, r.value) == r.value
    ensures var o := OptionalString(env, raw, key, fallback); o == fallback || (o != "" && TrimSpace(env.space, o) == o)
  {}

  /** Validating a validated configuration changes nothing. */
  lemma ValidateIdempotent(env: Env, provider: string, raw: Settings)
    requires Validate(env, provider, raw).Ok? && (provider != "sqs" ==> KeepsDefaults(env))
    ensures Validate(env, provider, Validate(env, provider, raw).value) == Validate(env, provider, raw)
  {
    if provider != "sqs" { DefaultsStay(env); }
    hide TrimSpace, ValidUrl;
    if provider == "bullmq" {
      TrimmedStays(env, raw, "redisUrl", "");
      TrimmedStays(env, raw, "prefix", "bull");
    } else if provider == "sqs" {
      SQSIdempotent(env, raw);
    } else {
      TrimmedStays(env, raw, "amqpUrl", "");
      TrimmedStays(env, raw, "vhost", "/");
    }
  }

  lemma SQSIdempotent(env: Env, raw: Settings)
    requires ValidateSQS(env, raw).Ok?
    ensures ValidateSQS(env, ValidateSQS(env, raw).value) == ValidateSQS(env, raw)
  {
    hide TrimSpace, ValidUrl;
    TrimmedStays(env, raw, "region", "");
    TrimmedStays(env, raw, "queueUrl", "");
    TrimmedStays(env, raw, "profile", "");
    TrimmedStays(env, raw, "endpointUrl", "");
  }

  lemma DefaultsStay(env: Env)
    requires KeepsDefaults(env)
    ensures TrimSpace(env.space, "bull") == "bull" && TrimSpace(env.space, "/") == "/"
  {}

  /** Blank prefixes and vhosts fall back before they are checked, so the two "cannot be empty" errors never occur. */
  lemma NeverEmptyErrors(env: Env, raw: Settings)
    requires KeepsDefaults(env)
    ensures ValidateBullMQ(env, raw) != Err("bullmq config prefix cannot be empty")
    ensures ValidateRabbitMQ(env, raw) != Err("rabbitmq config vhost cannot be empty")
  {}

  // ---- what is stored, spelled out ----

  /** A string that is not blank. */
  predicate Given(env: Env, raw: Settings, key: string) {
    key in raw && raw[key].Str? && TrimSpace(env.space, raw[key].value) != ""
  }

  function Trimmed(env: Env, raw: Settings, key: string): Json
    requires Given(env, raw, key)
  {
    Str(TrimSpace(env.space, raw[key].value))
  }

  predicate Points(env: Env, raw: Settings, key: string, scheme1: string, scheme2: string)
    requires Given(env, raw, key)
  {
    var u := env.parse(TrimSpace(env.space, raw[key].value));
    u.Some? && (u.value.scheme == scheme1 || u.value.scheme == scheme2) && u.value.host != ""
  }

  lemma ReadsGiven(env: Env, raw: Settings, key: string, fallback: string)
    ensures var r := RequiredString(env, raw, key); var o := OptionalString(env, raw, key, fallback);
            if Given(env, raw, key) then
              var t := TrimSpace(env.space, raw[key].value);
              r == Ok(t) && o == t && t != "" && TrimSpace(env.space, t) == t && Trimmed(env, raw, key) == Str(t)
            else r == Err("config " + key + " is required") && o == fallback
  {}

  lemma RequiredTexts()
    ensures "config " + "redisUrl" + " is required" == "config redisUrl is required"
    ensures "config " + "amqpUrl" + " is required" == "config amqpUrl is required"
    ensures "config " + "region" + " is required" == "config region is required"
    ensures "config " + "queueUrl" + " is required" == "config queueUrl is required"
  {}

  lemma PointsIs(env: Env, raw: Settings, key: string, scheme1: string, scheme2: string)
    requires Given(env, raw, key)
    ensures Points(env, raw, key, scheme1, scheme2)
            <==> ValidUrl(env, TrimSpace(env.space, raw[key].value), {scheme1, scheme2})
  {}

  /** What is given is stored without the white space around it; what is not given is refused, or has its default. */
  lemma BullMQStores(env: Env, raw: Settings)
    requires KeepsDefaults(env)
    ensures Validate(env, "bullmq", raw)
            == if !Given(env, raw, "redisUrl") then Err("config redisUrl is required")
               else if !Points(env, raw, "redisUrl", "redis", "rediss") then
                 Err("bullmq config redisUrl must be a valid redis:// or rediss:// URL")
               else
                 Ok(map["redisUrl" := Trimmed(env, raw, "redisUrl"),
                        "prefix" := if Given(env, raw, "prefix") then Trimmed(env, raw, "prefix") else Str("bull")])
  {
    hide TrimSpace, RequiredString, OptionalString, Given, Trimmed, Points, ValidUrl;
    RequiredTexts();
    DefaultsStay(env);
    ReadsGiven(env, raw, "redisUrl", "");
    ReadsGiven(env, raw, "prefix", "bull");
    if Given(env, raw, "redisUrl") { PointsIs(env, raw, "redisUrl", "redis", "rediss"); }
  }

  lemma RabbitMQStores(env: Env, raw: Settings)
    requires KeepsDefaults(env)
    ensures Validate(env, "rabbitmq", raw)
            == if !Given(env, raw, "amqpUrl") then Err("config amqpUrl is required")
               else if !Points(env, raw, "amqpUrl", "amqp", "amqps") then
                 Err("rabbitmq config amqpUrl must be a valid amqp:// or amqps:// URL")
               else
                 Ok(map["amqpUrl" := Trimmed(env, raw, "amqpUrl"),
                        "vhost" := if Given(env, raw, "vhost") then Trimmed(env, raw, "vhost") else Str("/")])
  {
    hide TrimSpace, RequiredString, OptionalString, Given, Trimmed, Points, ValidUrl;
    RequiredTexts();
    DefaultsStay(env);
    ReadsGiven(env, raw, "amqpUrl", "");
    ReadsGiven(env, raw, "vhost", "/");
    if Given(env, raw, "amqpUrl") { PointsIs(env, raw, "amqpUrl", "amqp", "amqps"); }
  }

  function WithGiven(env: Env, raw: Settings, key: string, config: Settings): Settings {
    if Given(env, raw, key) then config[key := Trimmed(env, raw, key)] else config
  }

  lemma SQSStores(env: Env, raw: Settings)
    ensures Validate(env, "sqs", raw)
            == if !Given(env, raw, "region") then Err("config region is required")
               else if !Given(env, raw, "queueUrl") then Err("config queueUrl is required")
               else if !Points(env, raw, "queueUrl", "https", "https") then
                 Err("sqs config queueUrl must be a valid https URL")
               else
                 var both := map["region" := Trimmed(env, raw, "region"), "queueUrl" := Trimmed(env, raw, "queueUrl")];
                 Ok(WithGiven(env, raw, "endpointUrl", WithGiven(env, raw, "profile", both)))
  {
    hide TrimSpace, RequiredString, OptionalString, Given, Trimmed, Points, ValidUrl;
    RequiredTexts();
    ReadsGiven(env, raw, "region", "");
    ReadsGiven(env, raw, "queueUrl", "");
    ReadsGiven(env, raw, "profile", "");
    ReadsGiven(env, raw, "endpointUrl", "");
    if Given(env, raw, "queueUrl") { PointsIs(env, raw, "queueUrl", "https", "https"); }
    assert {"https", "https"} == {"https"};
  }

  /** A BullMQ configuration is accepted exactly when it names a nonblank URL with a Redis scheme and a host. */
  lemma BullMQAcceptedIff(env: Env, raw: Settings)
    requires KeepsDefaults(env)
    ensures ValidateBullMQ(env, raw).Ok? <==>
              && "redisUrl" in raw && raw["redisUrl"].Str? && TrimSpace(env.space, raw["redisUrl"].value) != ""
              && ValidUrl(env, TrimSpace(env.space, raw["redisUrl"].value), {"redis", "rediss"})
  {}

  // ---- the adapter's reader ----

  function StringConfig(config: Settings, key: string, fallback: string): string {
    if key !in config || !config[key].Str? || config[key].value == "" then fallback else config[key].value
  }

  /** A setting that is missing, empty or no string reads as the fallback. */
  lemma ReaderIs(config: Settings, key: string, fallback: string)
    ensures var r := StringConfig(config, key, fallback);
            && (if key in config && config[key].Str? && config[key] != Str("") then config[key] == Str(r)
                else r == fallback)
            && DEFAULT_REDIS_URL == "redis://localhost:6379" && DEFAULT_PREFIX == "bull"
  {}

  /**
   * On a validated BullMQ configuration the adapter reads the URL and the prefix that validation
   * produced, never a fallback of its own.
   */
  lemma ReaderAgrees(env: Env, raw: Settings, fallback: string)
    requires ValidateBullMQ(env, raw).Ok?
    ensures var c := ValidateBullMQ(env, raw).value;
            && Ok(StringConfig(c, "redisUrl", fallback)) == RequiredString(env, raw, "redisUrl")
            && StringConfig(c, "prefix", fallback) == OptionalString(env, raw, "prefix", DEFAULT_PREFIX) != ""
            && ValidUrl(env, StringConfig(c, "redisUrl", fallback), {"redis", "rediss"})
  {}
}
