/** Configuration of service-b-orchestration: the weather API key, which must be set, and
    the listen port, defaulted and given a leading ':'. The environment variables are
    parameters. */
module OrchestrationConfig {
  import opened Results
  import opened Ports

  datatype Config = Config(weatherApiKey: string, serverPort: string)

  const DefaultPort := ":8081"
  const MissingKeyError := "WEATHER_API_KEY is not set; please provide it via environment variable"

  /** `LoadConfig`: `weatherApiKeyEnv` and `serverPortEnv` are os.Getenv of WEATHER_API_KEY
      and SERVER_PORT. */
  method LoadConfig(weatherApiKeyEnv: string, serverPortEnv: string) returns (r: Result<Config>)
    ensures r.Failure? <==> weatherApiKeyEnv == ""
    ensures r.Failure? ==> r.error == MissingKeyError
    ensures r.Success? ==> r.value.weatherApiKey == weatherApiKeyEnv
    ensures r.Success? ==> HasColonPrefix(r.value.serverPort)
    ensures r.Success? ==> r.value.serverPort == NormalizedPort(serverPortEnv, DefaultPort)
  {
    var cfg := Config(weatherApiKeyEnv, serverPortEnv);
    if cfg.weatherApiKey == "" {
      return Failure(MissingKeyError);
    }
    if cfg.serverPort == "" {
      cfg := cfg.(serverPort := DefaultPort);
    } else if cfg.serverPort[0] != ':' {
      cfg := cfg.(serverPort := ":" + cfg.serverPort);
    }
    return Success(cfg);
  }

  /** The listen address `main` computes from SERVER_PORT, with the default "8081". It is
      the port LoadConfig would give for the same setting. */
  method ListenAddress(serverPortEnv: string) returns (port: string)
    ensures HasColonPrefix(port)
    ensures port == NormalizedPort(serverPortEnv, DefaultPort)
  {
    port := serverPortEnv;
    if port == "" {
      port := "8081";
    }
    if !HasColonPrefix(port) {
      port := ":" + port;
    }
  }
}
