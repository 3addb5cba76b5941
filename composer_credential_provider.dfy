/**
 * The credential provider that is meant to read a key/secret pair from the
 * `amazon-aws.credentials` entry of Composer's configuration.
 */
module ComposerCredentialProvider {
  import opened Php
  import opened Errors
  import opened ComposerConfig

  const ConfigScope := "amazon-aws"
  const CredentialsPath := "credentials"
  const CredentialsPathKey := "key"
  const CredentialsPathSecret := "secret"
  const NoConfigErrorMessage := "No or incomplete credentials provided for Composer."

  datatype Credentials = Credentials(key: PhpValue, secret: PhpValue)

  /** The promise a credential provider returns. */
  datatype Promise = Rejected(reason: Thrown) | Fulfilled(credentials: Credentials)

  function NoConfigRejection(): Promise {
    Rejected(CredentialsException(NoConfigErrorMessage))
  }

  /** `__invoke()` as written. The second step binds `$credentials` to the
      boolean result of `isset(...)`, and a boolean has no `key` or `secret`
      offset, so whatever the configuration holds, the promise is the same
      rejection: the branch that builds `Credentials` cannot be reached. */
  function Invoke(config: Config): (p: Promise)
    ensures p == NoConfigRejection()
  {
    var scope := Get(config, ConfigScope);
    if !(IsSet(scope) && IsSet(Offset(scope, CredentialsPath))) then
      NoConfigRejection()
    else
      var credentials := PBool(IsSet(Offset(scope, CredentialsPath)));
      if !(IsSet(Offset(credentials, CredentialsPathKey)) && IsSet(Offset(credentials, CredentialsPathSecret))) then
        NoConfigRejection()
      else
        Fulfilled(Credentials(Offset(credentials, CredentialsPathKey), Offset(credentials, CredentialsPathSecret)))
  }

  /** The stored pair, when `amazon-aws.credentials` is an array holding
      both a non-null `key` and a non-null `secret`. */
  predicate HasStoredPair(config: Config) {
    var scope := Get(config, ConfigScope);
    && scope.PArray?
    && CredentialsPath in scope.entries
    && scope.entries[CredentialsPath].PArray?
    && IssetKey(scope.entries[CredentialsPath].entries, CredentialsPathKey)
    && IssetKey(scope.entries[CredentialsPath].entries, CredentialsPathSecret)
  }

  /** `__invoke()` as evidently intended, reading the `credentials` sub-array
      itself: it supplies exactly the stored pair when there is one, and
      otherwise the same rejection as before. */
  function InvokeIntended(config: Config): (p: Promise)
    ensures p.Fulfilled? <==> HasStoredPair(config)
    ensures p.Fulfilled? ==>
      var pair := Get(config, ConfigScope).entries[CredentialsPath].entries;
      p.credentials == Credentials(pair[CredentialsPathKey], pair[CredentialsPathSecret])
    ensures p.Rejected? ==> p == NoConfigRejection()
  {
    var scope := Get(config, ConfigScope);
    if !(IsSet(scope) && IsSet(Offset(scope, CredentialsPath))) then
      NoConfigRejection()
    else
      var credentials := Offset(scope, CredentialsPath);
      if !(IsSet(Offset(credentials, CredentialsPathKey)) && IsSet(Offset(credentials, CredentialsPathSecret))) then
        NoConfigRejection()
      else
        Fulfilled(Credentials(Offset(credentials, CredentialsPathKey), Offset(credentials, CredentialsPathSecret)))
  }

  /** A configuration with a complete stored pair, on which the provider
      as written rejects while the intended one supplies the pair. */
  lemma CompletePairStillRejected()
    ensures var pair := map[CredentialsPathKey := PStr("AKIA"), CredentialsPathSecret := PStr("s3cr3t")];
            var config := Config(map[ConfigScope := PArray(map[CredentialsPath := PArray(pair)])]);
            && HasStoredPair(config)
            && Invoke(config) == NoConfigRejection()
            && InvokeIntended(config) == Fulfilled(Credentials(PStr("AKIA"), PStr("s3cr3t")))
  {
  }
}
