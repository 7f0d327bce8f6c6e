/**
  The application configuration and its validation: a Discord token and a
  webhook URL are required, everything else is accepted as it is. Loading
  the configuration from files and the environment is not modelled.
 */
module Config {
  import opened Wrappers

  /** `ModemConfig`; the timeout is a `time.Duration`, in nanoseconds. */
  datatype ModemConfig = ModemConfig(device: string, baud: int, timeout: int)

  datatype DiscordConfig = DiscordConfig(token: string, webhookUrl: string)

  datatype LoggingConfig = LoggingConfig(level: string, format: string)

  datatype Config = Config(modem: ModemConfig, discord: DiscordConfig, logging: LoggingConfig)

  /** `ConfigError`: the offending field and what is wrong with it. */
  datatype ConfigError = ConfigError(field: string, message: string)

  const TokenField: string := "discord.token"
  const TokenRequired: string := "Discord token is required"
  const WebhookField: string := "discord.webhook_url"
  const WebhookRequired: string := "Discord webhook URL is required"

  /**
    `Validate`: accepts exactly the configurations with a token and a webhook
    URL; a missing token is reported first, even when the URL is missing too.
   */
  function Validate(c: Config): (r: Option<ConfigError>)
    ensures r.None? <==> c.discord.token != "" && c.discord.webhookUrl != ""
    ensures c.discord.token == "" ==> r == Some(ConfigError(TokenField, TokenRequired))
    ensures c.discord.token != "" && c.discord.webhookUrl == "" ==> r == Some(ConfigError(WebhookField, WebhookRequired))
  {
    if c.discord.token == "" then Some(ConfigError(TokenField, TokenRequired))
    else if c.discord.webhookUrl == "" then Some(ConfigError(WebhookField, WebhookRequired))
    else None
  }

  /** Validation looks only at the Discord section. */
  lemma ValidateDiscordOnly(c: Config, modem: ModemConfig, logging: LoggingConfig)
    ensures Validate(Config(modem, c.discord, logging)) == Validate(c)
  {
  }

  /** `ConfigError.Error`: the field, a colon and a space, then the message. */
  function Error(e: ConfigError): (s: string)
    ensures |s| == |e.field| + 2 + |e.message|
    ensures s[..|e.field|] == e.field && s[|e.field|..|e.field| + 2] == ": " && s[|e.field| + 2..] == e.message
  {
    e.field + ": " + e.message
  }

  /** In the text of an error whose field has no colon, the first colon ends the field. */
  lemma ErrorColon(e: ConfigError, i: nat)
    requires ':' !in e.field && i <= |e.field|
    ensures Error(e)[i] == ':' <==> i == |e.field|
  {
    if i < |e.field| {
      assert Error(e)[i] == e.field[i];
    }
  }

  /**
    For fields without a colon, as both fields `Validate` reports are, the
    message text determines the error: the field ends at the first colon.
   */
  lemma {:induction false} ErrorInjective(e1: ConfigError, e2: ConfigError)
    requires ':' !in e1.field && ':' !in e2.field
    ensures Error(e1) == Error(e2) <==> e1 == e2
  {
    if Error(e1) == Error(e2) {
      var s := Error(e1);
      var n1, n2 := |e1.field|, |e2.field|;
      if n1 < n2 {
        ErrorColon(e1, n1);
        ErrorColon(e2, n1);
        assert false;
      } else if n2 < n1 {
        ErrorColon(e1, n2);
        ErrorColon(e2, n2);
        assert false;
      }
      assert e1.field == s[..n1] == e2.field;
      assert e1.message == s[n1 + 2..] == e2.message;
    }
  }

  /** The table test of `Config.Validate`: one valid configuration and one for each missing field. */
  lemma ValidationTable(token: string, webhook: string)
    requires token == "test-token" && webhook == "https://discord.com/api/webhooks/test"
    ensures Validate(Config(ModemConfig("/dev/ttyUSB0", 115200, 20 * 1000000000),
                            DiscordConfig(token, webhook), LoggingConfig("info", "text"))) == None
    ensures Validate(Config(ModemConfig("", 0, 0), DiscordConfig("", webhook), LoggingConfig("", ""))).Some?
    ensures Validate(Config(ModemConfig("", 0, 0), DiscordConfig("", webhook), LoggingConfig("", ""))).value.field
      == TokenField
    ensures Validate(Config(ModemConfig("", 0, 0), DiscordConfig(token, ""), LoggingConfig("", ""))).Some?
    ensures Validate(Config(ModemConfig("", 0, 0), DiscordConfig(token, ""), LoggingConfig("", ""))).value.field
      == WebhookField
  {
  }
}
