/**
 * The AWS client wrapper of the plugin: turning an `s3://` (or virtual-hosted
 * `https://<bucket>.s3.amazonaws.com/`) URL into a bucket and a key, the
 * per-bucket S3 client cache with its configuration, credential-provider chain
 * and region lookup, and the download path with its error translation.
 *
 * The AWS SDK is not modelled: what its calls answer (the bucket region, the
 * `getObject` result, the presigned URL) and what the file system reports
 * after a save-to-path download are inputs of the operations, and the calls
 * made are recorded as events.
 */
module Aws {
  import opened Php
  import opened Errors
  import opened ComposerConfig
  import CCP = ComposerCredentialProvider

  const S3Host := "s3.amazonaws.com"
  const S3HostSuffix := ".s3.amazonaws.com"
  /** The key that stands for the root of a bucket. */
  const RootKey := "/"

  const VersionKey := "version"
  const ProfileKey := "profile"
  const RegionKey := "region"

  const CredentialsFailureMessage :=
    "Please add key/secret or a profile name into config.json or set up an IAM profile for your EC2 instance."
  const S3FailurePrefix := "Connection to Amazon S3 failed: "
  const UnknownFailureMessage := "Problem?"
  const PresignExpiry := "+2 minutes"
  const ProgressConnecting := "    Downloading: <comment>connection...</comment>"
  const ProgressDone := "    Downloading: <comment>100%</comment>"

  // The PHP engine errors raised by `unset($v['credentials'])` on a non-array.
  const UnsetStringOffsets := "Cannot unset string offsets"
  const UnsetNonArrayOffset := "Cannot unset offset in a non-array variable"

  /** A URL with the host and path that `parse_url` extracts from it. */
  datatype Url = Url(text: string, host: Option<string>, path: Option<string>)

  datatype BucketAndKey = BucketAndKey(bucket: Option<string>, key: string)

  /** A credential provider of the chain. */
  datatype Provider =
    | ComposerProvider(config: Config)   // new ComposerCredentialProvider($config)
    | IniProvider(profile: PhpValue)     // CredentialProvider::ini($profile)
    | DefaultProvider                    // CredentialProvider::defaultProvider()

  /** The configuration an S3 client is built with: its options and, under
      `credentials`, the chain of providers. */
  datatype ClientSettings = ClientSettings(options: map<string, PhpValue>, credentials: seq<Provider>)

  datatype GetObjectParams = GetObjectParams(bucket: Option<string>, key: string, saveAs: Option<string>)

  /** An opaque response body stream. */
  datatype Stream = Stream(handle: nat)

  datatype GetObjectResult = GetObjectResult(body: Stream)

  /** What `download` returns: the body stream, or the client itself once the
      object has been saved to the target path. */
  datatype Downloaded = Body(stream: Stream) | Saved

  /** The observable calls, in order: console output and SDK requests. */
  datatype Event =
    | IoWrite(text: string, newline: bool)
    | IoOverwrite(text: string)
    | RegionLookup(bucket: Option<string>, client: ClientSettings)
    | GetObject(params: GetObjectParams)
    | Presign(params: GetObjectParams, expires: string)

  // ---------------------------------------------------------------------
  // Bucket and key

  /** `substr(parse_url($url, PHP_URL_PATH) ?? "", 1)`. */
  function PathRemainder(path: Option<string>): (r: string)
    ensures path.Some? && |path.value| > 0 ==> [path.value[0]] + r == path.value
    ensures path.None? || path.value == "" ==> r == ""
  {
    DropFirst(if path.Some? then path.value else "")
  }

  /** The host as a string; `str_replace` reads a missing (null) host as "". */
  function HostText(host: Option<string>): string {
    if host.Some? then host.value else ""
  }

  /** A falsy key becomes the root key. */
  function KeyOrRoot(key: string): (k: string)
    ensures !FalsyString(k)
    ensures !FalsyString(key) ==> k == key
    ensures FalsyString(key) ==> k == RootKey
  {
    if FalsyString(key) then RootKey else key
  }

  /** The bucket and key a URL addresses, by case: a virtual-hosted host names
      the bucket (less any `.s3.amazonaws.com`) and the whole path is the key;
      for the bare endpoint `s3.amazonaws.com` the path's first segment is the
      bucket and the rest is the key. The key is never empty or "0", and only
      the bare endpoint with an empty path yields no bucket. */
  function ResolveBucketAndKey(host: Option<string>, path: Option<string>): (r: BucketAndKey)
    ensures !FalsyString(r.key)
    ensures r.bucket.None? <==> host == Some(S3Host) && FalsyString(PathRemainder(path))
    ensures host == Some(S3Host) && r.bucket.Some? ==> '/' !in r.bucket.value
    ensures host == Some(S3Host) && FalsyString(PathRemainder(path)) ==> r.key == RootKey
  {
    var rest := PathRemainder(path);
    if host != Some(S3Host) then
      BucketAndKey(Some(StrReplace(S3HostSuffix, "", HostText(host))), KeyOrRoot(rest))
    else if FalsyString(rest) then
      BucketAndKey(None, RootKey)
    else if '/' in rest then
      var i := IndexOf(rest, '/');
      BucketAndKey(Some(rest[..i]), KeyOrRoot(rest[i + 1..]))
    else
      BucketAndKey(Some(rest), RootKey)
  }

  /** A host that is not the bare endpoint and holds no `.s3.amazonaws.com`
      is the bucket itself; the path after its leading character is the key. */
  lemma PlainHostIsBucket(host: string, path: Option<string>)
    requires host != S3Host && !Occurs(S3HostSuffix, host)
    ensures ResolveBucketAndKey(Some(host), path) == BucketAndKey(Some(host), KeyOrRoot(PathRemainder(path)))
  {
    StrReplaceWithoutOccurrence(S3HostSuffix, "", host);
  }

  /** `s3://my-bucket/` addresses the root of `my-bucket`. */
  lemma BucketRootUrl()
    ensures ResolveBucketAndKey(Some("my-bucket"), Some("/")) == BucketAndKey(Some("my-bucket"), "/")
  {
  }

  /** `s3://bucket/path/to/object` addresses `path/to/object` in `bucket`. */
  lemma NestedKeyUrl()
    ensures ResolveBucketAndKey(Some("bucket"), Some("/path/to/object"))
         == BucketAndKey(Some("bucket"), "path/to/object")
  {
  }

  /** With no host, `str_replace` works on null, read as "": the bucket is "". */
  lemma NullHostGivesEmptyBucket(path: Option<string>)
    ensures ResolveBucketAndKey(None, path) == BucketAndKey(Some(""), KeyOrRoot(PathRemainder(path)))
  {
  }

  /** The virtual-hosted form `<bucket>.s3.amazonaws.com/<key>` and the
      path-style form `s3.amazonaws.com/<bucket>/<key>` address the same
      object, for a bucket name without slashes in which no
      `.s3.amazonaws.com` starts before the host's own suffix. */
  lemma {:induction false} VirtualHostedMatchesPathStyle(bucket: string, key: string)
    requires '/' !in bucket && NoMatchBefore(S3HostSuffix, bucket + S3HostSuffix, |bucket|)
    ensures ResolveBucketAndKey(Some(bucket + S3HostSuffix), Some("/" + key))
         == ResolveBucketAndKey(Some(S3Host), Some("/" + bucket + "/" + key))
         == BucketAndKey(Some(bucket), KeyOrRoot(key))
  {
    assert bucket + S3HostSuffix != S3Host by {
      assert |bucket + S3HostSuffix| != |S3Host|;
    }
    assert bucket + S3HostSuffix + "" == bucket + S3HostSuffix;
    StrReplaceAfterPrefix(S3HostSuffix, "", bucket, "");
    assert PathRemainder(Some("/" + key)) == key;
    var rest := bucket + ['/'] + key;
    assert ("/" + bucket + "/" + key)[1..] == rest;
    assert PathRemainder(Some("/" + bucket + "/" + key)) == rest;
    JoinIndex(bucket, '/', key);
    assert !FalsyString(rest) by {
      assert rest[|bucket|] == '/';
    }
    assert '/' in rest && IndexOf(rest, '/') == |bucket|;
    assert rest[..|bucket|] == bucket && rest[|bucket| + 1..] == key;
    assert ResolveBucketAndKey(Some(S3Host), Some("/" + bucket + "/" + key)) == BucketAndKey(Some(bucket), KeyOrRoot(key));
    assert StrReplace(S3HostSuffix, "", bucket + S3HostSuffix) == bucket;
    assert ResolveBucketAndKey(Some(bucket + S3HostSuffix), Some("/" + key)) == BucketAndKey(Some(bucket), KeyOrRoot(key));
  }

  /** Every bucket name without dots meets the condition above. */
  lemma DotFreeBucketHasNoEarlySuffix(bucket: string)
    requires '.' !in bucket
    ensures NoMatchBefore(S3HostSuffix, bucket + S3HostSuffix, |bucket|)
  {
    NoMatchInForeignPrefix(S3HostSuffix, bucket, "");
    assert bucket + S3HostSuffix + "" == bucket + S3HostSuffix;
  }

  /** In `my.bucket.s3.amazonaws.com` the suffix starts only at its end. */
  lemma DottedBucketHasNoEarlySuffix()
    ensures NoMatchBefore(S3HostSuffix, "my.bucket" + S3HostSuffix, |"my.bucket"|)
  {
    var host := "my.bucket" + S3HostSuffix;
    forall j: nat | j < 9
      ensures !MatchAt(S3HostSuffix, host, j)
    {
      var window := host[j..j + |S3HostSuffix|];
      if j != 2 {
        assert window[0] == host[j] != '.';
      } else {
        assert window[1] == host[3] == 'b';
      }
    }
  }

  /** A dotted bucket name: `my.bucket.s3.amazonaws.com/index.json` and
      `s3.amazonaws.com/my.bucket/index.json` both address `index.json` in
      `my.bucket`. */
  lemma DottedBucketUrl()
    ensures ResolveBucketAndKey(Some("my.bucket" + S3HostSuffix), Some("/" + "index.json"))
         == ResolveBucketAndKey(Some(S3Host), Some("/" + "my.bucket" + "/" + "index.json"))
         == BucketAndKey(Some("my.bucket"), "index.json")
  {
    DottedBucketHasNoEarlySuffix();
    VirtualHostedMatchesPathStyle("my.bucket", "index.json");
  }

  // ---------------------------------------------------------------------
  // Client configuration

  function BaseOptions(): map<string, PhpValue> {
    map[VersionKey := PStr("latest")]
  }

  /** The client options before credentials and region: `version: latest`
      overridden by the `amazon-aws` scope less its `credentials` entry.
      A falsy scope is not merged; a truthy scope that is not an array makes
      PHP raise an engine error at `unset`. */
  function MergedOptions(scope: PhpValue): (r: Result<map<string, PhpValue>>)
    ensures r.Failure? <==> Truthy(scope) && !scope.PArray?
    ensures r.Failure? ==> r.error.EngineError?
    ensures !Truthy(scope) ==> r == Success(BaseOptions())
    ensures r.Success? ==> VersionKey in r.value && CCP.CredentialsPath !in r.value
    ensures r.Success? ==> forall k :: k in r.value && k != VersionKey ==> scope.PArray? && k in scope.entries
    ensures r.Success? && scope.PArray? ==>
      forall k :: k in scope.entries && k != CCP.CredentialsPath ==> k in r.value && r.value[k] == scope.entries[k]
    ensures r.Success? && !(scope.PArray? && VersionKey in scope.entries) ==> r.value[VersionKey] == PStr("latest")
  {
    if !Truthy(scope) then
      Success(BaseOptions())
    else
      match scope
      case PArray(entries) => Success(ArrayMerge(BaseOptions(), entries - {CCP.CredentialsPath}))
      case PStr(_) => Failure(EngineError(UnsetStringOffsets))
      case _ => Failure(EngineError(UnsetNonArrayOffset))
  }

  /** The credential providers, in the order the chain tries them: Composer's
      configuration first, the named profile only when one is set, and the
      SDK's default provider always last. */
  function ProviderChain(config: Config, options: map<string, PhpValue>): (chain: seq<Provider>)
    ensures |chain| == if IssetKey(options, ProfileKey) then 3 else 2
    ensures chain[0] == ComposerProvider(config) && chain[|chain| - 1] == DefaultProvider
    ensures IssetKey(options, ProfileKey) ==> chain[1] == IniProvider(options[ProfileKey])
  {
    [ComposerProvider(config)]
      + (if IssetKey(options, ProfileKey) then [IniProvider(options[ProfileKey])] else [])
      + [DefaultProvider]
  }

  /** What every client the factory builds satisfies: a version entry, a set
      region, no raw `credentials` option, and a chain of the shape above. */
  predicate WellFormedSettings(s: ClientSettings) {
    && VersionKey in s.options
    && IssetKey(s.options, RegionKey)
    && CCP.CredentialsPath !in s.options
    && |s.credentials| == (if IssetKey(s.options, ProfileKey) then 3 else 2)
    && s.credentials[0].ComposerProvider?
    && s.credentials[|s.credentials| - 1] == DefaultProvider
    && (IssetKey(s.options, ProfileKey) ==> s.credentials[1] == IniProvider(s.options[ProfileKey]))
  }

  /** The region lookup a cache miss makes: one, for the bucket, with the
      merged options and the chain, exactly when no region is configured. */
  function RegionLookups(config: Config, bucket: Option<string>): (evs: seq<Event>)
    ensures var merged := MergedOptions(Get(config, CCP.ConfigScope));
      |evs| == (if merged.Success? && !IssetKey(merged.value, RegionKey) then 1 else 0)
    ensures |evs| == 1 ==> evs[0].RegionLookup? && evs[0].bucket == bucket
  {
    match MergedOptions(Get(config, CCP.ConfigScope))
    case Failure(_) => []
    case Success(options) =>
      if IssetKey(options, RegionKey) then []
      else [RegionLookup(bucket, ClientSettings(options, ProviderChain(config, options)))]
  }

  /** The settings of the client a cache miss builds, given what the region
      lookup answers: the region comes from the configuration when it is set
      there and from the lookup otherwise; the lookup's failure, or the
      engine error of a malformed scope, is what the factory throws. */
  function ClientSettingsFor(config: Config, regionAnswer: Result<string>): (r: Result<ClientSettings>)
    ensures r.Success? ==> WellFormedSettings(r.value)
    ensures var merged := MergedOptions(Get(config, CCP.ConfigScope));
      r.Failure? <==> merged.Failure? || (!IssetKey(merged.value, RegionKey) && regionAnswer.Failure?)
    ensures var merged := MergedOptions(Get(config, CCP.ConfigScope));
      r.Failure? ==> r.error == if merged.Failure? then merged.error else regionAnswer.error
    ensures var merged := MergedOptions(Get(config, CCP.ConfigScope));
      r.Success? ==>
        && r.value.credentials == ProviderChain(config, merged.value)
        && r.value.options - {RegionKey} == merged.value - {RegionKey}
        && r.value.options[RegionKey]
           == if IssetKey(merged.value, RegionKey) then merged.value[RegionKey] else PStr(regionAnswer.value)
  {
    match MergedOptions(Get(config, CCP.ConfigScope))
    case Failure(e) => Failure(e)
    case Success(options) =>
      var chain := ProviderChain(config, options);
      if IssetKey(options, RegionKey) then
        Success(ClientSettings(options, chain))
      else
        match regionAnswer
        case Failure(e) => Failure(e)
        case Success(region) => Success(ClientSettings(options[RegionKey := PStr(region)], chain))
  }

  /** A progress line, written only when progress is shown. */
  function ProgressEvents(shown: bool, line: Event): seq<Event> {
    if shown then [line] else []
  }

  /** The bucket and key of a URL. */
  function Target(url: Url): BucketAndKey {
    ResolveBucketAndKey(url.host, url.path)
  }

  /** PHP stores a null bucket under the array key "". */
  function ArrayKey(bucket: Option<string>): string {
    if bucket.Some? then bucket.value else ""
  }

  /** Two buckets share a cache entry exactly when they are equal, or when
      one is null and the other is "". */
  lemma SameCacheEntry(a: Option<string>, b: Option<string>)
    ensures ArrayKey(a) == ArrayKey(b) <==> a == b || (a == None && b == Some("")) || (a == Some("") && b == None)
  {
  }

  /** What the factory throws for `bucket` against the cache `clients`:
      nothing on a hit. */
  function FactoryFailure(clients: map<string, S3Client>, config: Config, bucket: Option<string>,
                          regionAnswer: Result<string>): (f: Option<Thrown>)
    ensures ArrayKey(bucket) in clients ==> f.None?
    ensures f.Some? ==> f.value.EngineError? || (regionAnswer.Failure? && f.value == regionAnswer.error)
    ensures f.Some? ==> ClientSettingsFor(config, regionAnswer).Failure? && f.value == ClientSettingsFor(config, regionAnswer).error
    ensures f.None? ==> ArrayKey(bucket) in clients || ClientSettingsFor(config, regionAnswer).Success?
  {
    if ArrayKey(bucket) in clients then None
    else match ClientSettingsFor(config, regionAnswer)
      case Failure(e) => Some(e)
      case Success(_) => None
  }

  /** The calls the factory makes for `bucket` against the cache `clients`:
      none on a hit. */
  function FactoryEvents(clients: map<string, S3Client>, config: Config, bucket: Option<string>): (evs: seq<Event>)
    ensures |evs| <= 1
    ensures forall e | e in evs :: e.RegionLookup? && e.bucket == bucket
    ensures forall e | e in evs :: e.client.credentials == ProviderChain(config, e.client.options)
    ensures var merged := MergedOptions(Get(config, CCP.ConfigScope));
      |evs| == 1 <==> ArrayKey(bucket) !in clients && merged.Success? && !IssetKey(merged.value, RegionKey)
  {
    if ArrayKey(bucket) in clients then [] else RegionLookups(config, bucket)
  }

  // ---------------------------------------------------------------------
  // Download results and error translation

  /** `if ($to)`: a target path is given when it is neither null, "" nor "0". */
  function SaveAs(to: Option<string>): (s: Option<string>)
    ensures s.Some? <==> Truthy(StrOrNull(to))
    ensures s.Some? ==> s == to
  {
    if to.Some? && !FalsyString(to.value) then to else None
  }

  function NotDownloaded(key: string, url: string): (e: Thrown)
    ensures e.TransportException? && e.code == 0 && e.previous.None?
  {
    TransportException("Unknown error occurred: '" + key + "' was not downloaded from '" + url + "'.", 0, None)
  }

  /** The `catch` clauses of `download`: every `\Exception` leaves as a
      `TransportException`, which keeps the original as its cause unless it
      already was one; an engine error is not caught. */
  function Translate(e: Thrown): (r: Thrown)
    ensures r.TransportException? <==> !e.EngineError?
    ensures e.TransportException? || e.EngineError? ==> r == e
    ensures r != e ==> r.TransportException? && r.previous == Some(e)
    ensures e.CredentialsException? ==> r.code == 403 && r.message == CredentialsFailureMessage
    ensures e.S3Exception? ==>
      && r.code == (if e.statusCode.Some? then e.statusCode.value else 0)
      && r.message == S3FailurePrefix + (if e.awsErrorMessage.Some? then e.awsErrorMessage.value else e.message)
    ensures e.OtherException? ==> r.code == 0 && r.message == UnknownFailureMessage
  {
    match e
    case CredentialsException(_) => TransportException(CredentialsFailureMessage, 403, Some(e))
    case S3Exception(message, statusCode, awsErrorMessage) =>
      TransportException(
        S3FailurePrefix + (if awsErrorMessage.Some? then awsErrorMessage.value else message),
        if statusCode.Some? then statusCode.value else 0,
        Some(e))
    case TransportException(_, _, _) => e
    case OtherException(_) => TransportException(UnknownFailureMessage, 0, Some(e))
    case EngineError(_) => e
  }

  /** The "was not downloaded" error is thrown inside the `try` and re-thrown
      as it is. */
  lemma NotDownloadedRethrown(key: string, url: string)
    ensures Translate(NotDownloaded(key, url)) == NotDownloaded(key, url)
  {
  }

  /** Translating twice is translating once. */
  lemma TranslateIdempotent(e: Thrown)
    ensures Translate(Translate(e)) == Translate(e)
  {
  }

  /** The outcome of `download` for the URL and target path, given what the
      factory throws, what `getObject` answers and the size of the saved
      file (None when it does not exist). Every failure reaches the caller as
      a `TransportException` (or as an uncaught engine error); with a target
      path the call succeeds only when a non-empty file was written. */
  function DownloadOutcome(url: Url, to: Option<string>, factoryFailure: Option<Thrown>,
                           objectAnswer: Result<GetObjectResult>, savedFileSize: Option<nat>): (r: Result<Downloaded>)
    ensures r.Failure? ==> r.error.TransportException? || r.error.EngineError?
    ensures r.Success? <==>
      && factoryFailure.None?
      && objectAnswer.Success?
      && (SaveAs(to).Some? ==> savedFileSize.Some? && savedFileSize.value > 0)
    ensures r.Success? ==> r.value == if SaveAs(to).Some? then Saved else Body(objectAnswer.value.body)
    ensures factoryFailure.Some? ==> r == Failure(Translate(factoryFailure.value))
    ensures factoryFailure.None? && objectAnswer.Failure? ==> r == Failure(Translate(objectAnswer.error))
    ensures factoryFailure.None? && objectAnswer.Success? && SaveAs(to).Some? && r.Failure? ==>
      r.error == NotDownloaded(ResolveBucketAndKey(url.host, url.path).key, url.text)
  {
    var key := ResolveBucketAndKey(url.host, url.path).key;
    if factoryFailure.Some? then
      Failure(Translate(factoryFailure.value))
    else if objectAnswer.Failure? then
      Failure(Translate(objectAnswer.error))
    else if SaveAs(to).Some? then
      if savedFileSize.None? || savedFileSize.value == 0 then
        Failure(Translate(NotDownloaded(key, url.text)))
      else
        Success(Saved)
    else
      Success(Body(objectAnswer.value.body))
  }

  /** Exhausted credentials reach the caller as a 403 with the guidance text,
      carrying the original exception. */
  lemma CredentialsFailureIs403(url: Url, to: Option<string>, message: string,
                                objectAnswer: Result<GetObjectResult>, savedFileSize: Option<nat>)
    ensures var failure := CredentialsException(message);
      DownloadOutcome(url, to, Some(failure), objectAnswer, savedFileSize)
      == Failure(TransportException(CredentialsFailureMessage, 403, Some(failure)))
  {
  }

  // ---------------------------------------------------------------------
  // Classes

  /** An S3 client, built once from its settings. */
  class S3Client {
    const settings: ClientSettings

    constructor (settings: ClientSettings)
      ensures this.settings == settings
    {
      this.settings := settings;
    }
  }

  /** The client wrapper: the Composer configuration, the cache of one S3
      client per bucket, and the trace of calls made. */
  class AwsClient {
    const config: Config
    var clients: map<string, S3Client>
    var events: seq<Event>

    ghost predicate Valid()
      reads this`clients
    {
      forall k :: k in clients ==> WellFormedSettings(clients[k].settings)
    }

    constructor (config: Config)
      ensures Valid()
      ensures this.config == config && clients == map[] && events == []
    {
      this.config := config;
      clients := map[];
      events := [];
    }

    /** `determineBucketAndKey`, on the host and path `parse_url` returns. */
    method DetermineBucketAndKey(host: Option<string>, path: Option<string>) returns (bucket: Option<string>, key: string)
      ensures BucketAndKey(bucket, key) == ResolveBucketAndKey(host, path)
    {
      var rest := PathRemainder(path);
      var parts: seq<string> := [];
      if !FalsyString(rest) {
        parts := Explode('/', rest);
      }
      ghost var segments := parts;
      if host != Some(S3Host) {
        parts := [StrReplace(S3HostSuffix, "", HostText(host))] + parts;
      }
      if |parts| == 0 {
        bucket := None;
      } else {
        bucket := Some(parts[0]);
        parts := parts[1..];
      }
      key := Implode('/', parts);
      if FalsyString(key) {
        key := RootKey;
      }

      if !FalsyString(rest) {
        if host != Some(S3Host) {
          assert parts == segments;
          ImplodeExplode('/', rest);
        } else if '/' in rest {
          var i := IndexOf(rest, '/');
          assert parts == Explode('/', rest[i + 1..]);
          ImplodeExplode('/', rest[i + 1..]);
        }
      }
    }

    /** The cache-miss part of `s3factory`: the options merged from the
        configuration, the provider chain after them, and the region lookup
        when no region is configured. The result is `ClientSettingsFor`, and
        the only call made is the lookup `RegionLookups` names. */
    method BuildClientSettings(config: Config, bucket: Option<string>, regionAnswer: Result<string>)
      returns (r: Result<ClientSettings>)
      modifies this`events
      ensures r == ClientSettingsFor(config, regionAnswer)
      ensures events == old(events) + RegionLookups(config, bucket)
    {
      var s3config := BaseOptions();
      var composerAws := Get(config, CCP.ConfigScope);
      if Truthy(composerAws) {
        if composerAws.PStr? {
          return Failure(EngineError(UnsetStringOffsets));
        } else if !composerAws.PArray? {
          return Failure(EngineError(UnsetNonArrayOffset));
        }
        var scope := composerAws.entries - {CCP.CredentialsPath};
        s3config := ArrayMerge(s3config, scope);
      }
      assert MergedOptions(composerAws) == Success(s3config);

      var credentialProviders := [ComposerProvider(config)];
      if IssetKey(s3config, ProfileKey) {
        credentialProviders := credentialProviders + [IniProvider(s3config[ProfileKey])];
      }
      credentialProviders := credentialProviders + [DefaultProvider];
      assert credentialProviders == ProviderChain(config, s3config);

      if !IssetKey(s3config, RegionKey) {
        events := events + [RegionLookup(bucket, ClientSettings(s3config, credentialProviders))];
        if regionAnswer.Failure? {
          return Failure(regionAnswer.error);
        }
        s3config := s3config[RegionKey := PStr(regionAnswer.value)];
      }
      r := Success(ClientSettings(s3config, credentialProviders));
    }

    /** `s3factory`: the cached client for the bucket, built on a miss. A hit
        returns the stored client and changes nothing; a miss makes the region
        lookup exactly when no region is configured and, unless something
        throws, stores one new client under the bucket and leaves every other
        entry alone. */
    method S3Factory(config: Config, bucket: Option<string>, regionAnswer: Result<string>) returns (r: Result<S3Client>)
      requires Valid()
      modifies this
      ensures Valid()
      ensures events == old(events) + FactoryEvents(old(clients), config, bucket)
      ensures ArrayKey(bucket) in old(clients) ==> r == Success(old(clients)[ArrayKey(bucket)])
      ensures r.Failure? <==> FactoryFailure(old(clients), config, bucket, regionAnswer).Some?
      ensures r.Failure? ==>
        FactoryFailure(old(clients), config, bucket, regionAnswer) == Some(r.error) && clients == old(clients)
      ensures r.Success? ==> clients == old(clients)[ArrayKey(bucket) := r.value]
      ensures r.Success? && ArrayKey(bucket) !in old(clients) ==>
        fresh(r.value) && r.value.settings == ClientSettingsFor(config, regionAnswer).value
      ensures r.Success? ==> WellFormedSettings(r.value.settings)
    {
      var key := ArrayKey(bucket);
      if key !in clients {
        var settings := BuildClientSettings(config, bucket, regionAnswer);
        if settings.Failure? {
          return Failure(settings.error);
        }
        var client := new S3Client(settings.value);
        clients := clients[key := client];
      }
      r := Success(clients[key]);
    }

    /** `download`: fetch the object the URL addresses, into the target path
        when one is given; what it returns or throws is `DownloadOutcome`,
        and the calls it makes are, in order, the progress line, the
        factory's region lookup, `getObject` and the completion line. */
    method Download(url: Url, progress: bool, to: Option<string>, regionAnswer: Result<string>,
                    objectAnswer: Result<GetObjectResult>, savedFileSize: Option<nat>) returns (r: Result<Downloaded>)
      requires Valid()
      modifies this
      ensures Valid()
      ensures var target := Target(url);
        var failure := FactoryFailure(old(clients), config, target.bucket, regionAnswer);
        && r == DownloadOutcome(url, to, failure, objectAnswer, savedFileSize)
        && events == old(events)
             + ProgressEvents(progress, IoWrite(ProgressConnecting, false))
             + FactoryEvents(old(clients), config, target.bucket)
             + (if failure.Some? then []
                else [GetObject(GetObjectParams(target.bucket, target.key, SaveAs(to)))]
                     + ProgressEvents(progress && objectAnswer.Success?, IoOverwrite(ProgressDone)))
      ensures var k := ArrayKey(Target(url).bucket);
        var failure := FactoryFailure(old(clients), config, Target(url).bucket, regionAnswer);
        && (failure.Some? || k in old(clients) ==> clients == old(clients))
        && (failure.None? && k !in old(clients) ==>
              && k in clients && fresh(clients[k])
              && clients == old(clients)[k := clients[k]]
              && clients[k].settings == ClientSettingsFor(config, regionAnswer).value)
    {
      var bucket, key := StartDownload(url, progress);
      r := TryDownload(url, bucket, key, progress, to, regionAnswer, objectAnswer, savedFileSize);
    }

    /** The `try` block of `download` with its `catch` clauses: build the
        `getObject` parameters, obtain the client, fetch the object, and
        translate whatever is thrown. */
    method TryDownload(url: Url, bucket: Option<string>, key: string, progress: bool, to: Option<string>,
                       regionAnswer: Result<string>, objectAnswer: Result<GetObjectResult>,
                       savedFileSize: Option<nat>) returns (r: Result<Downloaded>)
      requires Valid() && BucketAndKey(bucket, key) == Target(url)
      modifies this
      ensures Valid()
      ensures var failure := FactoryFailure(old(clients), config, bucket, regionAnswer);
        && r == DownloadOutcome(url, to, failure, objectAnswer, savedFileSize)
        && events == old(events)
             + FactoryEvents(old(clients), config, bucket)
             + (if failure.Some? then []
                else [GetObject(GetObjectParams(bucket, key, SaveAs(to)))]
                     + ProgressEvents(progress && objectAnswer.Success?, IoOverwrite(ProgressDone)))
      ensures var k := ArrayKey(bucket);
        var failure := FactoryFailure(old(clients), config, bucket, regionAnswer);
        && (failure.Some? || k in old(clients) ==> clients == old(clients))
        && (failure.None? && k !in old(clients) ==>
              && k in clients && fresh(clients[k])
              && clients == old(clients)[k := clients[k]]
              && clients[k].settings == ClientSettingsFor(config, regionAnswer).value)
    {
      var params := GetObjectParams(bucket, key, None);
      if SaveAs(to).Some? {
        params := params.(saveAs := to);
      }
      var s3 := S3Factory(config, bucket, regionAnswer);
      if s3.Failure? {
        r := Failure(Translate(s3.error));
      } else {
        r := FetchObject(url, key, params, progress, to, objectAnswer, savedFileSize);
      }
    }

    /** The start of `download`: the bucket and key of the URL, and the
        "connection..." line when progress is shown. */
    method StartDownload(url: Url, progress: bool) returns (bucket: Option<string>, key: string)
      modifies this`events
      ensures BucketAndKey(bucket, key) == Target(url)
      ensures events == old(events) + ProgressEvents(progress, IoWrite(ProgressConnecting, false))
    {
      bucket, key := DetermineBucketAndKey(url.host, url.path);
      if progress {
        events := events + [IoWrite(ProgressConnecting, false)];
      }
    }

    /** The part of `download` after the factory has returned a client:
        `getObject`, the completion line, and the check that a save-to-path
        download left a non-empty file. */
    method FetchObject(url: Url, key: string, params: GetObjectParams, progress: bool, to: Option<string>,
                       objectAnswer: Result<GetObjectResult>, savedFileSize: Option<nat>) returns (r: Result<Downloaded>)
      requires key == Target(url).key
      modifies this`events
      ensures r == DownloadOutcome(url, to, None, objectAnswer, savedFileSize)
      ensures events == old(events) + [GetObject(params)]
        + ProgressEvents(progress && objectAnswer.Success?, IoOverwrite(ProgressDone))
    {
      events := events + [GetObject(params)];
      if objectAnswer.Failure? {
        return Failure(Translate(objectAnswer.error));
      }
      if progress {
        events := events + [IoOverwrite(ProgressDone)];
      }
      if SaveAs(to).Some? {
        if savedFileSize.None? || savedFileSize.value == 0 {
          return Failure(Translate(NotDownloaded(key, url.text)));
        }
      } else {
        return Success(Body(objectAnswer.value.body));
      }
      return Success(Saved);
    }

    /** `getDownloadUrl`: the factory's failure propagates untranslated;
        otherwise a `GetObject` request for the bucket and key is presigned
        for two minutes and the answer is returned. */
    method GetDownloadUrl(url: Url, regionAnswer: Result<string>, presignAnswer: Result<string>) returns (r: Result<string>)
      requires Valid()
      modifies this
      ensures Valid()
      ensures var target := Target(url);
        var failure := FactoryFailure(old(clients), config, target.bucket, regionAnswer);
        && r == (if failure.Some? then Failure(failure.value) else presignAnswer)
        && events == old(events)
             + FactoryEvents(old(clients), config, target.bucket)
             + (if failure.Some? then []
                else [Presign(GetObjectParams(target.bucket, target.key, None), PresignExpiry)])
      ensures var k := ArrayKey(Target(url).bucket);
        var failure := FactoryFailure(old(clients), config, Target(url).bucket, regionAnswer);
        && (failure.Some? || k in old(clients) ==> clients == old(clients))
        && (failure.None? && k !in old(clients) ==>
              && k in clients && fresh(clients[k])
              && clients == old(clients)[k := clients[k]]
              && clients[k].settings == ClientSettingsFor(config, regionAnswer).value)
    {
      var bucket, key := DetermineBucketAndKey(url.host, url.path);
      var s3 := S3Factory(config, bucket, regionAnswer);
      if s3.Failure? {
        return Failure(s3.error);
      }
      events := events + [Presign(GetObjectParams(bucket, key, None), PresignExpiry)];
      r := presignAnswer;
    }
  }
}
