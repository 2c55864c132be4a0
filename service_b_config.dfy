/** Configuration of service-b: the weather API key and the listen port as read from the
    environment (or a .env file), the key fetched from Secret Manager when it is empty, and
    the port defaulted and given a leading ':'. */
module ServiceBConfig {
  import opened Results
  import opened Ports

  datatype Config = Config(weatherApiKey: string, serverPort: string)

  /** The Secret Manager as getWeatherAPIKey sees it: secretmanager.NewClient fails, or
      gives a client whose AccessSecretVersion answers a secret name with its payload or an
      error. */
  datatype SecretManager =
    | Unavailable(reason: string)
    | Connected(access: string -> Result<string>)

  const DefaultPort := ":8080"
  const ClientErrorPrefix := "failed to create secretmanager client: "
  const MissingProjectError := "GOOGLE_CLOUD_PROJECT environment variable not set"
  const AccessErrorPrefix := "failed to access secret version: "
  const FetchErrorPrefix := "failed to fetch WEATHER_API_KEY from Secret Manager: "

  function SecretName(projectId: string): string
  {
    "projects/" + projectId + "/secrets/WEATHER_API_KEY/versions/latest"
  }

  /** `getWeatherAPIKey`; `projectId` is os.Getenv("GOOGLE_CLOUD_PROJECT"). The client is
      created before the project is checked. */
  function WeatherApiKey(projectId: string, secrets: SecretManager): (r: Result<string>)
    ensures projectId == "" ==> r.Failure?
    ensures r.Success? <==>
      && secrets.Connected?
      && projectId != ""
      && secrets.access(SecretName(projectId)).Success?
    ensures r.Success? ==> r.value == secrets.access(SecretName(projectId)).value
  {
    match secrets
    case Unavailable(reason) => Failure(ClientErrorPrefix + reason)
    case Connected(access) =>
      if projectId == "" then Failure(MissingProjectError)
      else
        match access(SecretName(projectId))
        case Failure(e) => Failure(AccessErrorPrefix + e)
        case Success(payload) => Success(payload)
  }

  /** `LoadConfig` after viper has read WEATHER_API_KEY and SERVER_PORT. `fetched` records
      whether getWeatherAPIKey was called. */
  method LoadConfig(weatherApiKeySetting: string, serverPortSetting: string,
                    projectId: string, secrets: SecretManager)
    returns (r: Result<Config>, ghost fetched: bool)
    ensures fetched <==> weatherApiKeySetting == ""
    ensures weatherApiKeySetting != "" ==>
      r == Success(Config(weatherApiKeySetting, NormalizedPort(serverPortSetting, DefaultPort)))
    ensures weatherApiKeySetting == "" ==>
      match WeatherApiKey(projectId, secrets)
      case Failure(e) => r == Failure(FetchErrorPrefix + e)
      case Success(key) => r == Success(Config(key, NormalizedPort(serverPortSetting, DefaultPort)))
    ensures r.Success? ==> HasColonPrefix(r.value.serverPort)
  {
    var cfg := Config(weatherApiKeySetting, serverPortSetting);
    fetched := false;
    if cfg.weatherApiKey == "" {
      fetched := true;
      var secretKey := WeatherApiKey(projectId, secrets);
      if secretKey.Failure? {
        return Failure(FetchErrorPrefix + secretKey.error), fetched;
      }
      cfg := cfg.(weatherApiKey := secretKey.value);
    }
    if cfg.serverPort == "" {
      cfg := cfg.(serverPort := DefaultPort);
    } else if cfg.serverPort[0] != ':' {
      cfg := cfg.(serverPort := ":" + cfg.serverPort);
    }
    return Success(cfg), fetched;
  }

  /** The listen address `main` computes: PORT when it is set, else the configured port,
      with a leading ':'. */
  method ListenAddress(portEnv: string, configuredPort: string) returns (port: string)
    ensures HasColonPrefix(port)
    ensures portEnv != "" ==> port == EnsureColon(portEnv)
    ensures portEnv == "" && HasColonPrefix(configuredPort) ==> port == configuredPort
    ensures port == EnsureColon(if portEnv == "" then configuredPort else portEnv)
  {
    port := portEnv;
    if port == "" {
      port := configuredPort;
    }
    if !HasColonPrefix(port) {
      port := ":" + port;
    }
  }

  /** A key fetched from Secret Manager is taken as it comes, even when it is empty. */
  lemma EmptySecretAccepted(projectId: string, access: string -> Result<string>)
    requires projectId != "" && access(SecretName(projectId)) == Success("")
    ensures WeatherApiKey(projectId, Connected(access)) == Success("")
  {
  }
}
