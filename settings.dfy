/**
 * The process environment the three handlers read, resolved once into an immutable value.
 * Each field is `None` when the variable is unset; a set-but-empty variable is `Some("")`.
 */
module Settings {
  import opened Wrappers

  datatype Environment = Environment(
    encryptionAlgorithm: Option<string>,   // ENCRYPTION_ALGORITHM
    kmsKeyId: Option<string>,              // KMS_KEY_ID
    kmsKeyAlias: Option<string>,           // KMS_KEY_ALIAS
    awsRegion: Option<string>,             // AWS_REGION
    repoUrl: Option<string>,               // REPO_URL
    slackChannel: Option<string>,          // SLACK_CHANNEL
    eventBusName: Option<string>,          // EVENT_BUS_NAME
    agentRuntimeEndpoint: Option<string>)  // AGENT_RUNTIME_ENDPOINT

  /** AWS_REGION, defaulting to us-east-1. */
  function Region(env: Environment): string {
    env.awsRegion.GetOr("us-east-1")
  }

  /** EVENT_BUS_NAME, defaulting to the account's default bus. */
  function EventBusName(env: Environment): string {
    env.eventBusName.GetOr("default")
  }
}
