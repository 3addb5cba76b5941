# Composer S3 plugin: AWS client wrapper and credential provider

This project is a Dafny model of the core of the Composer plugin that fetches packages from Amazon S3. The core has two parts:

- `AwsClient` turns an `s3://…` URL into a bucket and a key. It keeps one S3 client per bucket, built on first use, and downloads or presigns objects.
- `ComposerCredentialProvider` is the first link of the client's credential chain.

What the model contains:

- **`Php`** (`php.dfy`) holds the slice of PHP the code relies on:
  - loosely typed values and their truthiness, including `""`, `"0"` and the empty array being falsy;
  - `isset` on array offsets;
  - `array_merge` and `unset` on string-keyed arrays;
  - `substr($s, 1)`, `explode`, `implode` and `str_replace`.
- **`Errors`** (`errors.dfy`) holds the exceptions of the download path and a `Result` type.
  - `EngineError` stands for a PHP `\Error`. A `catch (\Exception …)` clause does not catch it.
- **`ComposerConfig`** (`composer_config.dfy`) models the configuration as a map from top-level key to value.
- **`ComposerCredentialProvider`** (`composer_credential_provider.dfy`) holds:
  - the provider's constants;
  - `__invoke` as written;
  - a corrected version (see Findings).
- **`Aws`** (`aws_client.dfy`) has two layers.
  - Specification functions say what each operation computes:
    - URL resolution;
    - option merging;
    - the provider chain;
    - client settings;
    - what the factory throws and which calls it makes;
    - exception translation;
    - the outcome of a download.
  - Two classes implement the behaviour:
    - `S3Client` is a client built once from its settings.
    - `AwsClient` has the configuration, the client cache `clients` (a PHP array keyed by bucket) and a trace `events` of the calls made. Its imperative methods follow the PHP methods and are proved against the specification functions.

The AWS SDK and the file system are outside the model. What they answer is passed to the operations as inputs:

- the region-lookup answer;
- the `getObject` answer;
- the size of the saved file;
- the presigned URL.

The calls the code makes are recorded in the trace, in order:

- console writes;
- region lookups, with the settings they are made with;
- `getObject`, with its parameters;
- presign requests.

`parse_url` is an input too: a `Url` carries its text together with the host and path `parse_url` returns for it.

Where the code's own documentation and its statements disagree, the model follows the statements:

- The provider's docblock (ComposerCredentialProvider.php:38) says it "Loads composer credentials". As written it can only reject (see Findings).
- `download` declares `@throws \Composer\Downloader\TransportException` (AwsClient.php:61). There is one exception under PHP 8. A truthy `amazon-aws` scope that is not an array makes `unset($composerAws['credentials'])` raise a PHP engine error. `catch (\Exception $e)` does not catch that error, so it leaves `download` untranslated.
- A path of `"0"` counts as empty (`!empty`), so its key is `"/"`.
- A path-style URL without a path has a `null` bucket. It is cached under the array key `""`.
- A URL with no host reaches `str_replace` as `null`, which yields the bucket `""`.
- An `S3Exception` with no status code gives a `TransportException` with code 0. This and the code 0 of the "was not downloaded" error depend on the `TransportException` constructor assumed under "Left out".

## Model

| member | source | states |
|---|---|---|
| Php.Offset | src/Naderman/Composer/AWS/ComposerCredentialProvider.php:45-53 | An array that holds the key yields that entry; a set result comes only from such an array, so reading any other value gives null |
| Php.PhpTruthiness | src/Naderman/Composer/AWS/AwsClient.php:144 | Characterises `Truthy` and `FalsyString`: null, false, 0, "", "0" and the empty array are false; "00", " ", "false" and a non-empty array are true |
| Php.ArrayMerge | src/Naderman/Composer/AWS/AwsClient.php:175 | The keys are those of both arrays; the later array's value wins, and the earlier array's value stays where the later has no entry |
| Php.DropFirst | src/Naderman/Composer/AWS/AwsClient.php:131 | Putting the first character back gives the string again; an empty string gives "" |
| Php.Explode | src/Naderman/Composer/AWS/AwsClient.php:135 | There is at least one piece, and no piece contains the delimiter |
| Php.Implode | src/Naderman/Composer/AWS/AwsClient.php:143 | Joining delimiter-free pieces puts the delimiter into the result exactly when there are at least two pieces; it is the inverse of `explode` by the two round-trip lemmas below |
| Php.ImplodeExplode | src/Naderman/Composer/AWS/AwsClient.php:135-143 | Joining the pieces of `explode` with the same delimiter gives back the original string |
| Php.ExplodeImplode | src/Naderman/Composer/AWS/AwsClient.php:135-143 | Splitting a join of delimiter-free pieces gives back the same pieces |
| Php.StrReplace | src/Naderman/Composer/AWS/AwsClient.php:140 | Replacing with "" never makes the subject longer |
| Php.StrReplaceWithoutOccurrence | src/Naderman/Composer/AWS/AwsClient.php:140 | A subject with no occurrence of the search string comes back unchanged |
| Php.StrReplaceAfterPrefix | src/Naderman/Composer/AWS/AwsClient.php:140 | A prefix in which no occurrence starts is copied unchanged, and the occurrence right after it is replaced |
| Php.NoMatchInForeignPrefix | src/Naderman/Composer/AWS/AwsClient.php:140 | A prefix that lacks the first character of the search string cannot start an occurrence |
| Aws.PathRemainder | src/Naderman/Composer/AWS/AwsClient.php:131 | The remainder is the path less its first character, and "" for a null or empty path |
| Aws.KeyOrRoot | src/Naderman/Composer/AWS/AwsClient.php:144-146 | A falsy key ("" or "0") becomes "/", a truthy key is kept as is, so the key is never falsy |
| Aws.ResolveBucketAndKey | src/Naderman/Composer/AWS/AwsClient.php:128-148 | The key is never falsy. There is no bucket exactly when the host is the bare endpoint and the path is empty, and the key is then "/". On the bare endpoint the bucket has no '/' |
| Aws.NullHostGivesEmptyBucket | src/Naderman/Composer/AWS/AwsClient.php:138-140 | A URL without a host (`str_replace` on null, see `HostText`) gives the bucket "" and the path remainder as key |
| Aws.PlainHostIsBucket | src/Naderman/Composer/AWS/AwsClient.php:138-146 | A host other than the endpoint that holds no `.s3.amazonaws.com` is the bucket, and the whole path after its leading character is the key |
| Aws.BucketRootUrl | tests/AwsClientTest.php:41-59 | `s3://my-bucket/` resolves to bucket `my-bucket` and key `/` |
| Aws.NestedKeyUrl | src/Naderman/Composer/AWS/AwsClient.php:128-148 | `s3://bucket/path/to/object` resolves to bucket `bucket` and key `path/to/object` |
| Aws.VirtualHostedMatchesPathStyle | src/Naderman/Composer/AWS/AwsClient.php:138-143 | For a bucket name without '/' in which no `.s3.amazonaws.com` starts before the host's own suffix, `<bucket>.s3.amazonaws.com/<key>` and `s3.amazonaws.com/<bucket>/<key>` address the same bucket and key |
| Aws.DotFreeBucketHasNoEarlySuffix | src/Naderman/Composer/AWS/AwsClient.php:140 | Every bucket name without dots meets that condition |
| Aws.DottedBucketUrl | src/Naderman/Composer/AWS/AwsClient.php:138-143 | The dotted bucket `my.bucket` is resolved the same way in both forms, with key `index.json` |
| Aws.MergedOptions | src/Naderman/Composer/AWS/AwsClient.php:168-176 | It fails exactly for a truthy scope that is not an array, and the failure is an engine error. A falsy scope leaves `version: latest`. Otherwise `version` is present and `credentials` absent, every other key comes from the scope, every scope entry except `credentials` overrides, and `version` stays `latest` unless the scope sets it |
| Aws.ProviderChain | src/Naderman/Composer/AWS/AwsClient.php:207-220 | Composer's provider is first and the default provider last. The ini provider for the profile sits between them exactly when a profile is set, so the chain has 3 providers with a profile and 2 without |
| Aws.RegionLookups | src/Naderman/Composer/AWS/AwsClient.php:222-223 | A cache miss makes one region lookup, for the bucket, exactly when the merged options have no region set |
| Aws.ClientSettingsFor | src/Naderman/Composer/AWS/AwsClient.php:166-226 | Built settings are well-formed. It fails exactly when the options cannot be merged, or when no region is configured and the lookup fails, and throws that error. On success the chain is the provider chain, every option except `region` is the merged one, and the region comes from the configuration or else from the lookup |
| Aws.SameCacheEntry | src/Naderman/Composer/AWS/AwsClient.php:166-230 | Two buckets share a cache entry (`ArrayKey`) exactly when they are equal, or one is null and the other "" |
| Aws.FactoryFailure | src/Naderman/Composer/AWS/AwsClient.php:166-230 | A cached bucket never fails. What the factory throws is the build's error, which is either a PHP engine error or the region lookup's own failure; a miss that does not throw has buildable settings |
| Aws.FactoryEvents | src/Naderman/Composer/AWS/AwsClient.php:166-224 | The factory makes at most one call, a region lookup for the bucket with the provider chain of its options, and makes it exactly on a miss whose merged options have no region |
| Aws.SaveAs | src/Naderman/Composer/AWS/AwsClient.php:77-79 | A save-to path is passed exactly when `$to` is truthy in PHP's sense, and it is `$to` itself |
| Aws.NotDownloaded | src/Naderman/Composer/AWS/AwsClient.php:89-95 | The "was not downloaded" error is a `TransportException` with code 0 and no cause |
| Aws.NotDownloadedRethrown | src/Naderman/Composer/AWS/AwsClient.php:95-115 | That error leaves `download` unchanged through the re-throwing `catch` |
| Aws.Translate | src/Naderman/Composer/AWS/AwsClient.php:100-118 | Every exception leaves as a `TransportException`; an engine error is not caught. A `TransportException` passes through unchanged, and anything wrapped keeps the original as its cause. Credentials give 403 with the guidance text. An S3 exception gives its status code (or 0), with the prefix and the AWS error message (or its own message). Anything else gives 0 and "Problem?" |
| Aws.TranslateIdempotent | src/Naderman/Composer/AWS/AwsClient.php:114-115 | Translating an already translated exception changes nothing |
| Aws.DownloadOutcome | src/Naderman/Composer/AWS/AwsClient.php:63-121 | Every failure is a `TransportException` or an uncaught engine error. It succeeds exactly when the factory and `getObject` succeed and, with a save-to path, a non-empty file was written. It returns the body stream, or the client once saved. Factory and `getObject` failures are translated, and a missing or empty file gives the "was not downloaded" error for the key and URL |
| Aws.CredentialsFailureIs403 | src/Naderman/Composer/AWS/AwsClient.php:100-102 | A credentials failure reaches the caller as a 403 with the guidance text, carrying the original exception |
| Aws.S3Client.constructor | src/Naderman/Composer/AWS/AwsClient.php:226 | The client holds the settings it was built with |
| Aws.AwsClient.constructor | src/Naderman/Composer/AWS/AwsClient.php:43-53 | It keeps the configuration and starts with an empty cache and no calls made |
| Aws.AwsClient.DetermineBucketAndKey | src/Naderman/Composer/AWS/AwsClient.php:128-148 | The explode / unshift / shift / implode procedure computes exactly `ResolveBucketAndKey` |
| Aws.AwsClient.BuildClientSettings | src/Naderman/Composer/AWS/AwsClient.php:168-224 | The miss path computes exactly `ClientSettingsFor`, and the only call it makes is the region lookup `RegionLookups` names |
| Aws.AwsClient.S3Factory | src/Naderman/Composer/AWS/AwsClient.php:164-231 | It keeps every cached client well-formed. A hit returns the cached client and makes no calls. A miss makes exactly the region lookups of the build, and either throws `FactoryFailure` with the cache unchanged, or stores one new client with the `ClientSettingsFor` settings under the bucket and leaves every other entry alone |
| Aws.AwsClient.StartDownload | src/Naderman/Composer/AWS/AwsClient.php:65-69 | It yields the bucket and key of the URL, and writes the "connection..." line exactly when progress is shown |
| Aws.AwsClient.TryDownload | src/Naderman/Composer/AWS/AwsClient.php:71-118 | With the bucket and key of the URL, the result is `DownloadOutcome` for the factory's failure, the calls are the factory's lookups and then (unless it threw) `getObject` with the save-to path and the "100%" line; on a hit or failure the cache is unchanged, on a successful miss it gains one fresh client with the `ClientSettingsFor` settings |
| Aws.AwsClient.FetchObject | src/Naderman/Composer/AWS/AwsClient.php:82-99 | With a client at hand it issues `getObject`, writes the "100%" line only after `getObject` succeeds with progress shown, and returns the `DownloadOutcome` with no factory failure |
| Aws.AwsClient.Download | src/Naderman/Composer/AWS/AwsClient.php:63-121 | The result is the `DownloadOutcome` for the factory's failure against the old cache. The calls made are, in order: the "connection..." line, the factory's lookups, and then (unless the factory threw) `getObject` for the URL's bucket and key with the save-to path, and the "100%" line. On a hit or a factory failure the cache is unchanged; on a successful miss it gains one fresh client, with the `ClientSettingsFor` settings, under the bucket and nothing else |
| Aws.AwsClient.GetDownloadUrl | src/Naderman/Composer/AWS/AwsClient.php:238-252 | The factory's failure propagates untranslated. Otherwise a `GetObject` request for the URL's bucket and key (no save-to path) is presigned for "+2 minutes" after the factory's lookups, and the signer's answer is returned. The cache changes as in `Download` |
| ComposerConfig.Get | src/Naderman/Composer/AWS/ComposerCredentialProvider.php:44 | A stored key yields its value, and a set value comes only from a stored key |
| ComposerCredentialProvider.Invoke | src/Naderman/Composer/AWS/ComposerCredentialProvider.php:42-63 | Whatever the configuration holds, the provider rejects with `CredentialsException("No or incomplete credentials provided for Composer.")` |
| ComposerCredentialProvider.InvokeIntended | src/Naderman/Composer/AWS/ComposerCredentialProvider.php:42-63 | It succeeds exactly when `amazon-aws.credentials` holds a set `key` and `secret`, and then supplies that pair. Otherwise it gives the same rejection |
| ComposerCredentialProvider.CompletePairStillRejected | src/Naderman/Composer/AWS/ComposerCredentialProvider.php:49-55 | For a configuration with a complete key/secret pair, the provider as written rejects while the corrected one supplies the pair |

## Left out

- The provider chain is modelled as the ordered list of providers the client is built with. Evaluating it is left out: no provider is called, and there is no first-success-wins semantics. That evaluation lives inside the AWS SDK, which is not part of this model.
- What the SDK does is left out. This covers building `S3Client` and `S3MultiRegionClient` from the options, signing, and any exception thrown there. The region lookup, `getObject` and presign answers are inputs, and so is whether `determineBucketRegion` fails.
- `parse_url` is left out; its host and path results are inputs of the operations. The console I/O object is left out too; only the lines written to it are recorded, as events.
- `file_exists` and `filesize` on the target path are left out. They are one input, the size of the saved file, with `None` when the file does not exist.
- These parts of PHP's value model are left out: integer array keys (numeric-string bucket names becoming integer keys), insertion order of array entries, floats and objects. The model covers string-keyed arrays only.
- PHP strings are byte strings and Dafny strings are character strings. `substr($s, 1)` drops one byte, which is one character only for an ASCII first character; URL paths start with `/`.
- Aws.MergedOptions: the engine errors assume PHP 8 semantics for `unset` on a string or scalar offset, and PHP 8's `TypeError` from `array_merge` on a non-array. Earlier PHP versions warn and go on instead.
- Aws.Translate: the code 0 for an `S3Exception` without a status code assumes `TransportException` keeps `\RuntimeException`'s constructor, which reads a null code as 0, as Composer 1.x does. Composer 2.3 and later declare `int $code = 400`. Under that constructor a null status code raises a `TypeError`, which leaves `download` untranslated.
- Aws.NotDownloaded: under the same assumption, the code is the inherited default 0. Under the later constructor it would be 400.
- Concurrency is left out; the code is single-threaded.
- The commented-out `require_once` block of `s3factory` is left out, because it is dead code.
- The plugin glue outside the two core classes is left out: `AwsPlugin`, `S3RemoteFilesystem` and event registration. Their tests are not part of this model.
- Aws.AwsClient.GetDownloadUrl: the returned URL is the signer's answer. The model does not say how the URL is built from the request or cast to a string.
- Aws.AwsClient.Download: on success it returns `$this` for a saved file. This appears as the tag `Saved`, not as a reference to the client.

## Findings

| source | as written | input that shows it | evidently intended | confidence | as-written member | corrected member |
|---|---|---|---|---|---|---|
| src/Naderman/Composer/AWS/ComposerCredentialProvider.php:49 | `$credentials = isset($config['credentials']);` binds a boolean, so the following `isset($credentials['key'], $credentials['secret'])` is always false and the provider always rejects | `amazon-aws: {credentials: {key: "AKIA", secret: "s3cr3t"}}` is rejected with "No or incomplete credentials provided for Composer." | `$credentials = $config['credentials'];`, supplying the stored key and secret when both are set | not executed | ComposerCredentialProvider.Invoke, ComposerCredentialProvider.CompletePairStillRejected | ComposerCredentialProvider.InvokeIntended |
