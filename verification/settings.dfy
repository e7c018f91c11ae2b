/** The configuration values the providers read when they are constructed (config.py). */
module Settings {
  import opened Wrappers

  /** Environment-derived settings; an unset variable is None. */
  datatype Config = Config(
    openaiApiKey: Option<string>,
    openaiModel: string,
    anthropicApiKey: Option<string>,
    anthropicModel: string,
    awsAccessKeyId: Option<string>,
    awsSecretAccessKey: Option<string>,
    awsRegion: string,
    awsBedrockModel: string,
    ollamaBaseUrl: string,
    ollamaModel: string)

  /** Python truthiness of an optional string: set and not empty. */
  predicate Truthy(s: Option<string>) {
    s.Some? && s.value != ""
  }
}
