# xcon configuration resolution, modelled in Dafny

xcon looks up a configuration value by name. It checks several places in a fixed order:

1. overrides set on the current `Config` object, then on its parents;
2. the providers, asked directory by directory and provider by provider. The providers are the environment variables, SSM Parameter Store, Secrets Manager and a DynamoDB table. A DynamoDB cacher sits in front of the first cacheable provider.
3. defaults set on the current object, then on its parents;
4. the caller's default.

Each provider fetches a directory at most once and keeps the listing. The listing is kept even when it is empty because a handled AWS error cut the fetch short. All providers' caches share one reset clock.

This project models that engine and proves what it promises. One Dafny module covers each source file:

| module | file | models |
|---|---|---|
| `Base` | — | the `Option` and `Result` wrappers and the error kinds the code raises. |
| `Text` | — | the string operations the code relies on: lower-casing, `split` and `join`. |
| `Directories` | `directory.py` | directories, directory chains, items with their JSON form, and the `DirectoryListing` class. |
| `Providers` | `provider.py` | the provider chain and its lookup, the errored-directory bookkeeping, and the `LocalProviderCache` class, which models `InternalLocalProviderCache`. |
| `AwsErrors` | `providers/common.py` | `handle_aws_exception`. |
| `Environmental`, `SsmParamStore`, `SecretsManager` | `providers/environmental.py`, `providers/ssm_param_store.py`, `providers/secrets_manager.py` | one provider class each. |
| `Dynamo` | `providers/dynamo.py` | the DynamoDB provider, the cacher, and the table wrapper with its batch writer. |
| `Configs` | `config.py` | the `Config` class, parent-chain computation and resolution. |
| `ChangeHandler` | the config manager's change handler | turning a change event into a cache query. |

Where the source updates an object in place, the model does the same: `DirectoryListing`, `ProviderErrors`, `LocalProviderCache`, the providers, `ConfigDynamoTable`, `BatchTable` and `Config` are classes with `modifies` clauses. Each method is proved against a specification function. The properties the code promises are proved as lemmas about those functions.

Things outside the program become parameters:

- **Time.** The clock is an integer number of seconds (`now`).
- **Randomness.** The random jitters are integer parameters held to the ranges `random.randint` draws from.
- **AWS.** Every AWS response is an oracle. An oracle is a map or value given to the operation: the table's query pages, the parameter pages, the secret listing and values, and the exception a call raises.
- **Providers seen from the chain.** The provider chain's view of its sources is an oracle too (`Providers.Answers`): for each source and directory, `get_item` returns nothing, an item, or raises an exception. What the cacher's `cache_items` raises, if anything, is a parameter (`cacheRaised`). Both kinds of exception propagate through `ProviderChain.get_item`, `_get_item` and `get`.
- **Context.** The xinject context is the sequence of `Config` objects it holds, in dependency order. Resolution runs on snapshots (`ConfigState`) of this object followed by its parent chain.
- **Settings.** The settings (`XconSettings`) are a value whose defaults are those of `xcon/conf.py`.

The set of AWS error codes to ignore is modelled as it is written. A missing comma joins `'UnrecognizedClientException'` and `'ExpiredTokenException'` into one string, so neither code is ignored on its own (`AwsErrors.ConcatenatedCodes`).

Where the code and its documentation differ, the model follows the code:

- `_check_proper_cacher_or_raise_error` builds a `ConfigError` but never raises it, so setting a cacher never fails. Only resolving a cacher that is not `DynamoCacher` fails.
- `_env_only_is_turned_on` reads `only_env_provider`, while `xcon/conf.py:71` defines `env_only_provider`. The model has one flag, `onlyEnvProvider`, for the setting that code reads.
- A `DirectoryItem` always counts as truthy in `if item:` checks. A `Directory` or a `DirectoryChain` does too, so only `None` fails those checks.
- A missing path in a change event raises `AttributeError`; the model returns `Err(NoPathInEvent)`. A truthy path that is not a string fails at `':' in path` or `path.split`; the model returns `Err(WrongType)`.

## Model

| member | source | states |
|---|---|---|
| Text.Lower | xcon/directory.py:439 | lower-casing (of ASCII letters only) works character by character: same length, each character lower-cased on its own |
| Text.LowerIdempotent | xcon/directory.py:439 | lower-casing a lower-cased name changes nothing |
| Text.JoinSplit | xcon/providers/secrets_manager.py:93-96 | joining the `/`-split pieces back with `/` gives the original path |
| Text.SplitPiecesHaveNoSep | xcon/providers/secrets_manager.py:93-95 | no piece of a split contains the separator |
| Text.SplitJoin | xcon/providers/secrets_manager.py:93-96 | splitting pieces joined with a separator they do not contain gives the pieces back |
| Text.SplitAround | xcon/serverless_files/config_manager/change_handler.py:46 | splitting text made of two parts around a separator gives the pieces of each part |
| Text.SplitAtLast | xcon/serverless_files/config_manager/change_handler.py:56-57 | the last piece and the text before the last separator are the two parts around it |
| Directories.ParsePlain | xcon/directory.py:157 | a path without braces has only literal text and no format fields |
| Directories.ParseField | xcon/directory.py:157 | a `{name}` field in front of more text is read as one field token followed by the parse of the rest |
| Directories.ParseLit | xcon/directory.py:157 | a literal character in front of more text is kept as a literal token in front of the parse of the rest |
| Directories.ParseFormatAppend | xcon/directory.py:157 | plain text followed by more text parses as its literal tokens in front of the parse of the rest |
| Directories.PlainHasNoFields | xcon/directory.py:155-163 | a brace-free path has no format fields, so it never names an unknown one |
| Directories.PathFromComponents | xcon/directory.py:184-204 | the path always starts with `/` and has a service segment |
| Directories.PathWithoutService | xcon/directory.py:185-186 | a missing service is the `global` service |
| Directories.PathWithoutEnvironment | xcon/directory.py:188-204 | without an environment (or with `/` alone) the path is `/` and the service, `/global` when there is no service |
| Directories.PathDropsOneLeadingSlash | xcon/directory.py:190-192 | exactly one leading `/` of the environment is dropped: `e` and `/e` give the same path, `//e` keeps a slash |
| Directories.ExportWithoutEnvironment | xcon/directory.py:195-197 | an export directory without an environment is `/s/export` |
| Directories.ExportEnvironmentPrefix | xcon/directory.py:195-199 | an export environment starting with `export/` is kept, any other gets `export/` in front |
| Directories.NewDirectory | xcon/directory.py:125-165 | the path is the one built from the components; `is_path_format=False` never fails and gives a non-format directory; a directory marked as a format has parseable, known fields |
| Directories.PlainNewDirectory | xcon/directory.py:155-165 | components whose path has no braces make a plain (non-format) directory with exactly that path |
| Directories.UnknownFieldRejected | xcon/directory.py:155-163 | a path with a placeholder other than `service`/`environment` is refused with `ConfigError` |
| Directories.Resolve | xcon/directory.py:248-264 | a non-format directory resolves to itself; a format directory resolves to itself (nothing to fill in) or to a non-format directory; the result is well formed |
| Directories.ServiceEnvOfPath | xcon/directory.py:267-284 | `/s/e` with a plain `s` and an `e` not starting with `/` splits into service `s` and environment `e` |
| Directories.ServiceOfPath | xcon/directory.py:267-284 | `/s` splits into service `s` and no environment |
| Directories.FromPathRoundTrip | xcon/directory.py:125-146 | `Directory(path="/s/e")` has service `s`, environment `e` and the same path; without braces it is exactly the plain directory of that path |
| Directories.FromServicePathRoundTrip | xcon/directory.py:125-146 | the same round trip for `/s` without an environment |
| Directories.NonExistentFromPath | xcon/directory.py:144-145 | parsing `/_nonExistent` gives the non-existent directory, which reports itself as non-existent |
| Directories.IdentityIncludesFormatFlag | xcon/directory.py:48-49 | two directories with the same path but different format flags are different values, and agree on being non-existent |
| Directories.Paths | xcon/directory.py:39-41 | the list of paths has one entry per directory, in order |
| Directories.ChainKey | xcon/directory.py:32-42 | the loop building `concatenated_directory_paths` computes the `\|`-join of the paths in order |
| Directories.ChainKeyIdentifiesPaths | xcon/directory.py:26-30 | for paths without `\|`, two chains are equal (same key) iff they list the same paths in the same order |
| Directories.NewItem | xcon/directory.py:428-464 | the name is lower-cased, `original_name` defaults to the given name, a missing directory becomes the non-existent one, the range key is built from name and both concatenated fields only when none was given and both are set; every other field is kept |
| Directories.NonExistentItem | xcon/provider.py:423-424 | the not-found item has no value, sits in the non-existent directory, is cacheable and carries the lower-cased name |
| Directories.ToJson | xcon/directory.py:569-609 | `json()` succeeds iff both cache keys are set; `value` is written iff asked for and present, `ttl` iff set, `source` iff non-empty |
| Directories.JsonFieldsOf | xcon/directory.py:502-566 | every field `from_json` reads back from a `json()` dict is the item's own field |
| Directories.JsonRoundTrip | xcon/directory.py:502-609 | `from_json(json())` gives back the item (name, original name, directory path, value, ttl, source, both keys, concatenated fields), with `cacheable` reset to true and `from_cacher` false |
| Directories.ListingOf | xcon/directory.py:623-636 | a listing filled from items keys each item by its own name |
| Directories.ListingOfHoldsLast | xcon/directory.py:623-636 | a name is in the listing iff some added item has it, and what is kept is the last such item |
| Directories.DifferentValueItems | xcon/directory.py:648-671 | exactly the input items whose name is absent from the listing or whose value differs are kept, never more than were given |
| Directories.DirectoryListing.constructor | xcon/directory.py:623-627 | the listing records its directory and holds the given items added in order |
| Directories.DirectoryListing.AddItem | xcon/directory.py:635-636 | the item is stored under its name, replacing any same-name item; nothing else changes |
| Directories.DirectoryListing.RemoveItemWithName | xcon/directory.py:638-646 | the lower-cased name is removed; with the name absent nothing changes |
| Directories.DirectoryListing.GetItem | xcon/directory.py:673-675 | an item is found iff the lower-cased name is held, and it is the item under that name |
| Directories.DirectoryListing.GetItemsWithDifferentValue | xcon/directory.py:648-671 | the filter loop returns exactly `DifferentValueItems` of the current items |
| Directories.AddThenGet | xcon/directory.py:635-675 | after adding an item, looking up its name in any case finds it, and other names are unaffected |
| Directories.LookupIgnoresCase | xcon/directory.py:673-675 | a lookup by a name and by its lower-case form agree |
| Providers.FirstCacheable | xcon/provider.py:310-313 | the position of the first provider that is not query-before-cache: every provider before it is, it is not, and `\|ps\|` means none |
| Providers.ChainFingerprint | xcon/provider.py:299-323 | the loop computes `concatenated_provider_names` (the names from the first cacheable provider on, `\|`-joined) and `have_any_cachable_providers` holds iff some provider is not query-before-cache |
| Providers.CacheKeyNamesArePastLeadingRun | xcon/provider.py:310-314 | the names split at the first cacheable provider: everything before it is query-before-cache, and the key names start at it |
| Providers.ProvidersWithCacher | xcon/provider.py:325-340 | the generator yields exactly the sources of `WithCacher` in order |
| Providers.WithCacherKeepsProviders | xcon/provider.py:325-340 | with or without a cacher, every provider is yielded, in the chain's order |
| Providers.WithCacherAsksCacherOnce | xcon/provider.py:325-340 | the cacher is yielded exactly once when there is a cacher and some provider is not query-before-cache, and never otherwise |
| Providers.WithCacherPosition | xcon/provider.py:325-340 | the cacher comes right after the leading query-before-cache run and immediately before the first other provider |
| Providers.FirstAnswerIsFirst | xcon/provider.py:365-390 | a directory is answered iff some source answers it, and then by the first source that does |
| Providers.HitDirectoryIsFirst | xcon/provider.py:363-420 | every directory before the hit directory has no answer, and the hit directory has one |
| Providers.AskSources | xcon/provider.py:365-390 | the inner loop returns the first source's answer for the directory, which is the exception when that source raises |
| Providers.GetItem | xcon/provider.py:342-436 | the nested loops return the item and the batch handed to the cacher described by `ChainLookup`, or raise what the first answering source or `cache_items` raises |
| Providers.RaisedOutcome | xcon/provider.py:363-390 | when the first source to answer in the hit directory raises instead, the chain raises that exception |
| Providers.MissOutcome | xcon/provider.py:423-435 | when no directory answers, the result is the non-existent item, cached together with the searched maps only with a cacher and an environ, and then only if `cache_items` does not raise |
| Providers.HitOutcome | xcon/provider.py:389-435 | when directory `i` is the first to answer with an item, the result is that item, cached with the searched maps only when cacher, environ and cacheability allow, and then only if `cache_items` does not raise |
| Providers.FirstAnswered | xcon/provider.py:363-390 | the first (directory, source) pair with an answer: all earlier pairs have none |
| Providers.SearchOrderFirst | xcon/provider.py:363-420 | the first answered pair in directory-major order lies in the hit directory and is its first answer |
| Providers.LookupFollowsSearchOrder | xcon/provider.py:363-436 | the first (directory, source) pair that answers, directories in the outer loop and sources in the inner one, decides: its exception is raised, or its item (else the non-existent item) is returned unless `cache_items` raises |
| Providers.CachedBatch | xcon/provider.py:358-436 | a batch goes to the cacher iff there is a cacher and an environ and the result is cacheable, and the batch holds the result under its name; with an item found, the chain raises exactly when that batch is sent and `cache_items` raises |
| Providers.CachedBatchEarlierWins | xcon/provider.py:413-417 | every other name in the batch carries the value of the first searched directory whose retrieved map has it |
| Providers.EarlierWinsLookup | xcon/provider.py:461 | in the merged map a key is present iff some map has it, with the value of the first map holding it |
| Providers.AnsweredMaps | xcon/provider.py:453-460 | the providers' maps in order, up to (not including) the first provider that has retrieved nothing |
| Providers.RetrievedItemsMap | xcon/provider.py:438-462 | the merge loop computes the maps of the answering prefix, higher-priority providers winning |
| Providers.DirectoryMaps | xcon/provider.py:413-417 | one merged provider map per directory, in order |
| Providers.ProviderErrors.constructor | xcon/provider.py:149-150 | a provider starts with no errored directory and no remembered botocore error |
| Providers.ProviderErrors.MarkErroredDirectory | xcon/provider.py:179-187 | the directory joins the errored set, so `directory_has_error` holds for it; nothing else changes |
| Providers.ExpireTimeDelta | xcon/provider.py:493-518 | the delta is positive: the configured minutes when positive, else 15 minutes |
| Providers.Expire | xcon/provider.py:560-566 | all entries go at once, with the clock reset to now, exactly when the last reset is older than the delta |
| Providers.ExpireIdempotent | xcon/provider.py:560-566 | expiring twice at the same moment is expiring once |
| Providers.SameObjectUntilReset | xcon/provider.py:520-554 | a provider gets the same object back, without the constructor running, until the cache expires |
| Providers.ConstructorOnlyWhenAbsent | xcon/provider.py:539-554 | an existing entry is returned as it is and the constructor is not used |
| Providers.ConstructorMustProvide | xcon/provider.py:542-552 | a constructor that returns `None` without storing anything makes the call fail with the `ValueError` and stores nothing |
| Providers.LocalProviderCache.constructor | xcon/provider.py:512-518 | a new cache is empty, reset now, with the delta of the configured minutes |
| Providers.LocalProviderCache.ResetCache | xcon/provider.py:564-566 | all entries are dropped and the clock is set to now |
| Providers.LocalProviderCache.ExpireCacheIfNeeded | xcon/provider.py:560-562 | the new state is `Expire` of the old one |
| Providers.LocalProviderCache.GetCacheForProvider | xcon/provider.py:520-554 | the result and the new state are those of `GetCache` on the old state |
| Providers.LocalProviderCache.SetCacheForProvider | xcon/provider.py:556-558 | after expiring, the provider's entry is the given object and the others are kept |
| Providers.WithListings | xcon/provider.py:222-226 | only the provider's own entry changes, and it now holds the given listings |
| Providers.AwsLocalCache | xcon/provider.py:222-226 | `local_cache` returns the provider's listings after expiry, stored as an (empty if new) dictionary |
| Providers.AwsStoreListing | xcon/provider.py:222-226 | storing a listing first expires the cache if it is due, then replaces that directory's listing only; after an expiry the provider holds just this listing |
| Environmental.EnvironmentalDirectoryParses | xcon/providers/environmental.py:115-118 | the directory string `/_environmental` of snapshot items parses into the plain environmental directory |
| Environmental.VariableItem | xcon/providers/environmental.py:114-119 | a variable's item has the lower-cased name (original kept), the value as text, the `/_environmental` directory, `cacheable=False` and source `env` |
| Environmental.SnapshotItems | xcon/providers/environmental.py:114-119 | one item per variable, in order |
| Environmental.SnapshotLookup | xcon/providers/environmental.py:114-146 | a name is found in the snapshot iff some variable has it in any case, and the item found is that of the last such variable |
| Environmental.SnapshotItemsAreEnvironmental | xcon/providers/environmental.py:114-119 | every snapshot item is a non-cacheable `env` item of `/_environmental` |
| Environmental.CreateSnapshot | xcon/providers/environmental.py:98-119 | the loop fills a new listing that holds exactly the snapshot of the variables |
| Environmental.EnvironmentalProvider.constructor | xcon/providers/environmental.py:53-112 | variables given up front become the permanent user snapshot; without them there is none |
| Environmental.EnvironmentalProvider.LocalCache | xcon/providers/environmental.py:43-109 | the user snapshot when there is one (shared cache untouched); otherwise the shared cache's entry, whose constructor stores a snapshot of the environment and returns `None` |
| Environmental.EnvironmentalProvider.GetItemWithoutEnviron | xcon/providers/environmental.py:134-146 | a case-insensitive lookup in the current snapshot |
| Environmental.EnvironmentalProvider.GetValueWithoutEnviron | xcon/providers/environmental.py:148-164 | `None` for an absent name, the item's value otherwise |
| Environmental.EnvironmentalProvider.GetItem | xcon/providers/environmental.py:166-176 | the directory and chains play no part: the answer is the snapshot lookup of the name |
| Environmental.EnvironmentalProvider.RetrievedItemsMap | xcon/providers/environmental.py:178-192 | always an empty map, never `None` |
| Environmental.EnvironSnapshotUntilReset | xcon/providers/environmental.py:43-51 | without a user snapshot, the environment snapshot taken first is used until the shared cache expires, whatever the environment becomes |
| SsmParamStore.ParameterItem | xcon/providers/ssm_param_store.py:59-67 | a parameter's item sits in the queried directory, is named by the lower-cased last `/` segment, and carries the value and source `ssm` |
| SsmParamStore.PageItems | xcon/providers/ssm_param_store.py:59-67 | one item per parameter of the page, in order |
| SsmParamStore.FetchedItemsMembers | xcon/providers/ssm_param_store.py:58-67 | an item is fetched iff it is the item of some parameter of some received page |
| SsmParamStore.FetchListingLookup | xcon/providers/ssm_param_store.py:58-84 | a name is in the stored listing iff some received parameter's last segment is that name in any case, and the item found is such a parameter's |
| SsmParamStore.FetchedOnce | xcon/providers/ssm_param_store.py:45-83 | after one successful lookup the directory's listing is stored; later lookups of any name answer from it and ignore the store |
| SsmParamStore.IgnoredErrorLeavesEmptyListing | xcon/providers/ssm_param_store.py:68-84 | after an ignored error on the first page the directory holds an empty listing and every later lookup answers `None` |
| SsmParamStore.SsmParamStoreProvider.constructor | xcon/provider.py:149-150 | a new provider has no errored directory and no remembered botocore error |
| SsmParamStore.SsmParamStoreProvider.ItemOnlyForDirectory | xcon/providers/ssm_param_store.py:38-84 | the result and the provider's listings are those of `ItemForDirectory` after expiry; an exception is handled (errored directory, botocore error) only on a fetch that failed |
| SsmParamStore.SsmParamStoreProvider.FetchDirectory | xcon/providers/ssm_param_store.py:49-84 | for a directory not held, the fetched listing is stored and the exception, if any, goes through the AWS error handling |
| SsmParamStore.SsmParamStoreProvider.GetItem | xcon/providers/ssm_param_store.py:26-36 | no directory means `None` and no change; an unparseable path fails; otherwise the directory is looked in as `ItemForDirectory` says |
| SsmParamStore.SsmParamStoreProvider.RetrievedItemsMap | xcon/providers/ssm_param_store.py:86-93 | the directory's listing, `None` iff it has not been fetched |
| SecretsManager.ListSecretsDirectoryParses | xcon/providers/secrets_manager.py:124-126 | the directory `Directory(path="list_secrets")` the listing's error is recorded for parses as a plain directory |
| SecretsManager.GlobalPath | xcon/directory.py:184-204 | with no service and no environment the path is `/global`, which has no format braces |
| SecretsManager.NameOnlyItem | xcon/providers/secrets_manager.py:108-113 | a listed secret becomes an item of its directory with the lower-cased name (original kept), no value and source `secrets-nameOnly` |
| SecretsManager.AddAvailableSplits | xcon/providers/secrets_manager.py:93-120 | a secret `dir/name` with a plain name is listed as `name` in the listing of the directory parsed from `dir`; other directories' listings are kept |
| SecretsManager.EmptyNameSkipped | xcon/providers/secrets_manager.py:98-103 | a secret whose full name ends in `/` adds nothing |
| SecretsManager.AvailableFromWellFormed | xcon/providers/secrets_manager.py:91-120 | every listed item sits in the listing of its own directory, under its own name, without a value |
| SecretsManager.AvailableFromErrSticks | xcon/providers/secrets_manager.py:87-126 | once a listed name cannot be added, the listing fails with that error whatever follows |
| SecretsManager.SecretsOf | xcon/providers/secrets_manager.py:65-70 | the provider's cache object is always a `_LocalSecretsManagerCache` (a fresh one when it has none) |
| SecretsManager.WithSecrets | xcon/providers/secrets_manager.py:65-70 | only the provider's own entry changes, to the given cache object |
| SecretsManager.Available | xcon/providers/secrets_manager.py:72-137 | a kept listing is returned as is; a new listing is kept on success; a failing listing changes nothing; the per-directory items are untouched |
| SecretsManager.ListingMadeOnce | xcon/providers/secrets_manager.py:82-128 | the listing of names is made at most once: a later call returns the kept one, whatever the backend lists |
| SecretsManager.SecretOutcome | xcon/providers/secrets_manager.py:170-184 | a fetched secret is kept; a fetch that failed but did not raise leaves no value and was a `ClientError` |
| SecretsManager.SecretItem | xcon/providers/secrets_manager.py:191-194 | the stored item has the directory, the lower-cased name, source `secrets`, and a value exactly when a secret was fetched |
| SecretsManager.ListingHandled | xcon/providers/secrets_manager.py:121-126 | the listing's exception is handed over exactly when a new listing is made, it parses, and the backend failed; it is handed over for the `list_secrets` directory |
| SecretsManager.FetchedSecret | xcon/providers/secrets_manager.py:169-199 | after a value fetch that does not raise, the item is stored for the name; the answer has a value exactly when a secret was fetched; the exception handed over is the fetch's own, for the directory |
| SecretsManager.UnlistedNameNeedsNoFetch | xcon/providers/secrets_manager.py:157-166 | a name not cached and not listed for the directory gives `None`, whatever the value store would answer |
| SecretsManager.FetchedValueIsKept | xcon/providers/secrets_manager.py:150-199 | after a lookup, the next lookup of that name answers the same from the stored item, with no exception handed over, whatever the backend does |
| SecretsManager.SecretsManagerProvider.constructor | xcon/provider.py:149-150 | a new provider has no errored directory and no remembered botocore error |
| SecretsManager.SecretsManagerProvider.LocalCache | xcon/providers/secrets_manager.py:65-70 | the provider's cache object after expiry, stored back under the provider |
| SecretsManager.SecretsManagerProvider.StoreCache | xcon/providers/secrets_manager.py:186-195 | the provider's entry is replaced by the updated cache object |
| SecretsManager.SecretsManagerProvider.AvailableNames | xcon/providers/secrets_manager.py:72-137 | the result and the new cache are those of `Available`; the errored directories and botocore error follow the exceptions of `ListingHandled` |
| SecretsManager.SecretsManagerProvider.ListNames | xcon/providers/secrets_manager.py:85-137 | the listing loop computes `Available` for a cache without a listing, handling the backend's exception only when the names parsed |
| SecretsManager.SecretsManagerProvider.FetchSecret | xcon/providers/secrets_manager.py:170-184 | the outcome is `SecretOutcome`; only the exceptions that reach `handle_aws_exception` mark the directory |
| SecretsManager.SecretsManagerProvider.FetchValue | xcon/providers/secrets_manager.py:169-199 | the result, the new cache and the handled exceptions are those of `FetchedSecret` |
| SecretsManager.SecretsManagerProvider.ItemForDirectory | xcon/providers/secrets_manager.py:150-199 | the result, the new cache and the handled exceptions are those of `SecretLookup` after expiry |
| SecretsManager.SecretsManagerProvider.GetItem | xcon/providers/secrets_manager.py:139-199 | no directory means `None` and no change; an unparseable path fails; otherwise the lookup is `SecretLookup` |
| SecretsManager.SecretsManagerProvider.RetrievedItemsMap | xcon/providers/secrets_manager.py:201-208 | the directory's listing of fetched items, `None` iff there is none |
| AwsErrors.Classify | xcon/providers/common.py:9-74 | an exception is ignored by class exactly when it is a missing-credentials or missing-region error, ignored by code exactly when it is a `ClientError` with a response whose code is in the ignore set, and raised again otherwise |
| AwsErrors.MarkedAfter | xcon/providers/common.py:50-101 | the directory is added to the errored directories exactly when the exception is ignored |
| AwsErrors.BotoCoreAfter | xcon/providers/common.py:102-103 | an exception of an ignored botocore class (missing credentials or region) becomes the remembered botocore error; any other exception leaves it as it was |
| AwsErrors.MarkedAfterAll | xcon/providers/common.py:30-103 | after a run of handled exceptions, a directory is errored exactly when it was before or one of its exceptions was ignored |
| AwsErrors.BotoCoreAfterAll | xcon/providers/common.py:102-103 | after a run of handled exceptions, the remembered botocore error, when it changed, is one of the ignored botocore exceptions of the run |
| AwsErrors.BotoCoreAfterAllIsLast | xcon/providers/common.py:102-103 | after a run of handled exceptions, the remembered botocore error is the last exception of an ignored botocore class in the run, or the earlier one when the run has none |
| AwsErrors.HandledSnoc | xcon/providers/common.py:30-103 | handling one more exception is one more step of each fold |
| AwsErrors.FoldsConcat | xcon/providers/common.py:30-103 | handling two runs of exceptions one after the other is handling their concatenation |
| AwsErrors.HandleAwsException | xcon/providers/common.py:30-103 | returns normally exactly when the exception is ignored, and raises that exception otherwise; marks the directory exactly when ignored; remembers an ignored botocore error |
| AwsErrors.IgnoredClientErrorOnlyMarks | xcon/providers/common.py:61-103 | a `ClientError` ignored by its code marks the directory but is not remembered as the botocore error |
| AwsErrors.ConcatenatedCodes | xcon/providers/common.py:15-26 | as the set literal is written, `ExpiredTokenException` and `UnrecognizedClientException` are raised again while their concatenation and `AccessDeniedException` are ignored |
| Dynamo.Unexpired | xcon/providers/dynamo.py:514-517 | the query filter keeps exactly the rows with no `ttl` or a `ttl` after the expire time |
| Dynamo.Paginate | xcon/providers/dynamo.py:578-600 | every row the paginated query yields passes the expire-time filter |
| Dynamo.QueryRows | xcon/providers/dynamo.py:578-600 | the page loop yields the rows of `Paginate`: the pages are read until one has no `LastEvaluatedKey` |
| Dynamo.ParseRows | xcon/providers/dynamo.py:592-597 | on success there is exactly one item per row |
| Dynamo.ParseRowsMeaning | xcon/providers/dynamo.py:592-597 | on success each item is parsed from its own row; on failure the error is the parse error of some row |
| Dynamo.FromJsonTtl | xcon/directory.py:538-540 | a row that parses carries its `ttl` into the item |
| Dynamo.QueriedItemsUnexpired | xcon/providers/dynamo.py:511-517 | every item read from a directory has no ttl or a ttl after the expire time |
| Dynamo.WritesOf | xcon/providers/dynamo.py:444-455 | one write per row, through the batch writer when there is one and straight to the table otherwise |
| Dynamo.Rendered | xcon/providers/dynamo.py:455 | each item is rendered to JSON for the table on its own |
| Dynamo.OkPrefixMeaning | xcon/providers/dynamo.py:469-471 | the rows written before a failure are the rendered rows before it, and the failure is the first rendering error |
| Dynamo.OkPrefixConcat | xcon/providers/dynamo.py:469-471 | writing two runs of items one after the other, when the first succeeds, writes both runs' rows |
| Dynamo.JsonRowsStep | xcon/providers/dynamo.py:469-471 | the put loop advances one item at a time: a failing item stops it with its error, a good one adds its row |
| Dynamo.ConfigDynamoTable.constructor | xcon/providers/dynamo.py:433-442 | a new table has no batch writer and has written nothing |
| Dynamo.ConfigDynamoTable.PutItem | xcon/providers/dynamo.py:444-455 | the item's row is written through the batch writer, or straight to the table without one; an item that does not render writes nothing and fails |
| Dynamo.ConfigDynamoTable.PutEach | xcon/providers/dynamo.py:469-471 | the rows of the items up to the first that does not render are written, and that item's error is returned |
| Dynamo.ConfigDynamoTable.PutItems | xcon/providers/dynamo.py:457-471 | no items write nothing; one item is put directly; several items go through the table's batch writer, a new one when the table had none |
| Dynamo.BatchTable.constructor | xcon/providers/dynamo.py:611-612 | a new context manager wraps its table and has entered no batch writer |
| Dynamo.BatchTable.Enter | xcon/providers/dynamo.py:614-628 | entering twice is a `ConfigError`; with a table batch writer already active nothing changes; otherwise a new batch writer is set on both the table and the context manager |
| Dynamo.BatchTable.Exit | xcon/providers/dynamo.py:630-636 | the table's batch writer is removed only by the context manager that set it |
| Dynamo.ProviderFetch | xcon/providers/dynamo.py:58-76 | a remembered botocore error is raised again for the new directory; at most one exception is handled, for that directory; after an ignored one the listing is empty |
| Dynamo.DynamoLookup | xcon/providers/dynamo.py:52-80 | a kept listing answers without a fetch; a failure changes no listing; on success the directory's new listing answers the lookup; no other directory's listing appears or disappears |
| Dynamo.DynamoFetchedOnce | xcon/providers/dynamo.py:53-80 | after a successful lookup, any later lookup in that directory answers from the kept listing, whatever the table or remembered error |
| Dynamo.RememberedErrorShortCircuits | xcon/providers/dynamo.py:61-79 | with an ignored botocore error remembered, a new directory is not read: it gets an empty listing, the answer is `None`, and the error is handled for it |
| Dynamo.DynamoProvider.constructor | xcon/provider.py:149-150 | a new provider has no errored directory and no remembered botocore error |
| Dynamo.DynamoProvider.Fetch | xcon/providers/dynamo.py:58-76 | the items and the handled exceptions are those of `ProviderFetch` |
| Dynamo.DynamoProvider.FetchDirectory | xcon/providers/dynamo.py:58-80 | the answer and the new listings are those of `DynamoLookup` for a directory not yet read |
| Dynamo.DynamoProvider.ItemForDirectory | xcon/providers/dynamo.py:52-80 | the answer, the new cache and the errors are those of `DynamoLookup` after cache expiry |
| Dynamo.DynamoProvider.GetItem | xcon/providers/dynamo.py:41-80 | no directory means `None` and no change; an unparseable path fails with no change; otherwise the lookup is `DynamoLookup` |
| Dynamo.DynamoProvider.RetrievedItemsMap | xcon/providers/dynamo.py:82-89 | the directory's kept listing, `None` iff it was never read |
| Dynamo.CacherKey | xcon/providers/dynamo.py:312-316 | the cache listing is kept under the environ, then the directory paths and provider names of the chains |
| Dynamo.WithCacherCache | xcon/providers/dynamo.py:152-157 | only the cacher's own entry in the shared cache changes, to the given cache object |
| Dynamo.WithCacherCacheTwice | xcon/providers/dynamo.py:152-157 | storing the cacher's cache twice keeps only the second |
| Dynamo.CacherLocalCache | xcon/providers/dynamo.py:152-157 | the cacher's cache object after expiry, a fresh empty one when the shared cache had none |
| Dynamo.CacherStoreCache | xcon/providers/dynamo.py:316-357 | the shared cache's cacher entry is replaced by the updated cache object |
| Dynamo.AdoptedTtl | xcon/providers/dynamo.py:358-375 | the cacher's ttl changes exactly when the first read item has a ttl between one minute and two days after the current one, and then becomes that ttl |
| Dynamo.EnvironItems | xcon/providers/dynamo.py:337-375 | kept environ items are returned as is; a failing read changes nothing; a read is kept for the environ; the ttl only grows, by at most two days; after an ignored exception the items are empty |
| Dynamo.EnvironRead | xcon/providers/dynamo.py:342-355 | at most one exception is handled, for the environ; after an ignored one the items are empty |
| Dynamo.Matching | xcon/providers/dynamo.py:327-334 | exactly the environ items cached under the same directory paths and provider names |
| Dynamo.CacherListing | xcon/providers/dynamo.py:306-335 | a kept listing is reused; a new listing is kept under its key, and stays empty when the environ read fails; listings under other keys are untouched |
| Dynamo.ListingOfMembers | xcon/directory.py:623-636 | every item in a listing built from items is one of them |
| Dynamo.CacherListingUnderKey | xcon/providers/dynamo.py:327-335 | a listing only ever holds items cached under its own chains |
| Dynamo.EnvironReadOnce | xcon/providers/dynamo.py:337-357 | once an environ was read, a listing for other chains in it is built from the kept items with no new read |
| Dynamo.FailedListingStaysEmpty | xcon/providers/dynamo.py:316-323 | a listing whose environ read failed is kept, empty, and answers every later call |
| Dynamo.EnvironToUse | xcon/providers/dynamo.py:377-395 | the configured service and environment, when both are non-blank, give the environ; otherwise the passed environ is used |
| Dynamo.CachedItem | xcon/providers/dynamo.py:209-233 | the cached copy keeps the directory, value and lower-cased name, takes the item's own ttl or the cacher's, is stored under the environ and the chains, and notes its directory in the source |
| Dynamo.ToSendSends | xcon/providers/dynamo.py:208-234 | only cached copies of cacheable input items are sent |
| Dynamo.ToSendNothingIff | xcon/providers/dynamo.py:208-237 | nothing is sent, and the listing is unchanged, exactly when every cacheable item is already in the listing with the same value |
| Dynamo.ToSendKeepsUnder | xcon/providers/dynamo.py:234 | the listing after sending still holds only items cached under its chains |
| Dynamo.ToSendRepeatOnce | xcon/providers/dynamo.py:208-234 | an item passed twice in one call is sent once |
| Dynamo.PutOutcome | xcon/providers/dynamo.py:236-258 | nothing to send or an errored environ writes nothing; otherwise the items are put and a put exception is handled for the environ |
| Dynamo.PutWritesRows | xcon/providers/dynamo.py:457-471 | a put writes one row per sent item, in order, directly exactly when there is one item |
| Dynamo.DynamoCacher.constructor | xcon/providers/dynamo.py:159-182 | the ttl is twelve hours ahead with at most 1500 seconds of jitter either way; no directory has errored |
| Dynamo.DynamoCacher.RetrievedItemsMap | xcon/providers/dynamo.py:126-132 | the cacher reports no retrieved items |
| Dynamo.DynamoCacher.ReadEnviron | xcon/providers/dynamo.py:342-355 | the items and the handled exceptions are those of `EnvironRead` |
| Dynamo.DynamoCacher.HandleQueryError | xcon/providers/dynamo.py:351-354 | an ignored exception yields no items and is handled once for the environ; any other is raised again |
| Dynamo.DynamoCacher.ItemsForEnviron | xcon/providers/dynamo.py:337-375 | the items, the new cache, the ttl and the errors are those of `EnvironItems` after expiry |
| Dynamo.DynamoCacher.AddMatching | xcon/providers/dynamo.py:327-334 | the listing of the matching items |
| Dynamo.DynamoCacher.NewListing | xcon/providers/dynamo.py:323-335 | a listing not yet kept is built as `CacherListing` says |
| Dynamo.DynamoCacher.GetListing | xcon/providers/dynamo.py:306-335 | the listing, the new cache, ttl and errors are those of `CacherListing` for the chains' key |
| Dynamo.DynamoCacher.GetItem | xcon/providers/dynamo.py:260-304 | without a directory or an environ the answer is `None` and nothing changes; otherwise the name is looked up in the chains' listing |
| Dynamo.DynamoCacher.ItemsToSend | xcon/providers/dynamo.py:207-234 | the items sent and the listing after are those of `ToSend` |
| Dynamo.DynamoCacher.StoreListing | xcon/providers/dynamo.py:234 | the listing is kept under its key in the cacher's cache |
| Dynamo.DynamoCacher.SendItems | xcon/providers/dynamo.py:236-258 | the result, the writes and the errors are those of `PutOutcome` |
| Dynamo.DynamoCacher.CacheItems | xcon/providers/dynamo.py:184-258 | new or changed cacheable items are added to the chains' listing and written unless the environ has errored; the exceptions of the read and of the put are handled in that order |
| Configs.Dedup | xcon/config.py:388-403 | an insertion-ordered dict used as an ordered set: no duplicates, the same members as the input, never longer |
| Configs.DedupSnoc | xcon/config.py:414-418 | adding a value to the ordered set appends it only when it is new, keeping the existing order |
| Configs.DedupOfNoDup | xcon/config.py:1045-1048 | a value list with no repeats is its own ordered set |
| Configs.DedupPrefix | xcon/config.py:1068-1075 | adding more values never reorders or drops the values already there |
| Configs.Givens | xcon/config.py:1068-1073 | the non-`Default` entries of a value list; never more than the entries |
| Configs.ExpandMembers | xcon/config.py:1068-1075 | a value is in the spliced list exactly when it is one of the object's own entries, or the object has `Default` and the parents resolved it |
| Configs.ExpandWithoutDefault | xcon/config.py:1045-1048 | without `Default`, the object's own values are used and the parents are not consulted |
| Configs.GivensNoDup | xcon/config.py:1045-1048 | the own values of an ordered set have no repeats and are exactly its non-`Default` entries |
| Configs.ExpandConcat | xcon/config.py:1069-1073 | splicing the parents' values in place of `Default` works piece by piece over the entry list |
| Configs.Resolved | xcon/config.py:1031-1075 | the resolved values of an attribute over the parent chain have no repeats |
| Configs.WithoutDefaultIsOwn | xcon/config.py:1045-1048 | an object whose list has no `Default` resolves to its own values, whatever its parents hold |
| Configs.OnlyDefaultIsParent | xcon/config.py:1062-1065 | an object whose list is just `Default` resolves to exactly what its parents resolve to |
| Configs.ResolvedMembers | xcon/config.py:1031-1075 | a value is resolved exactly when the object lists it, or lists `Default` and its parents resolve it; at the end of the chain, exactly the settings' defaults |
| Configs.ResolvedFromChain | xcon/config.py:1031-1075 | every resolved value is listed by some object of the chain or comes from the settings' defaults |
| Configs.OwnValuesBeforeDefaultComeFirst | xcon/config.py:1068-1075 | the object's own values listed before its first `Default` come first, in order, in the resolved values |
| Configs.ResolveAttrValues | xcon/config.py:1031-1075 | the recursive resolution along the cursor computes `Resolved` |
| Configs.Splice | xcon/config.py:1068-1075 | the splice loop gives the ordered set of the own values with the parents' values in place of `Default` |
| Configs.Update | xcon/config.py:1071 | `dict.update` on an ordered set gives the ordered set of the old and new values in order |
| Configs.ResolveAttrFirstGiven | xcon/config.py:1159-1179 | a single-valued attribute takes the value of the first object of the chain that sets it |
| Configs.ResolveAttrAllDefault | xcon/config.py:1170-1172 | when no object of the chain sets it, the attribute falls back to the settings' default |
| Configs.CacherWith | xcon/config.py:1096-1157 | in env-only mode there is never a cacher |
| Configs.CacherFirstChoice | xcon/config.py:1101-1157 | the first object of the chain with a cacher choice other than `Default` decides: `None` means no cacher, `DynamoCacher` a cacher, anything else a `ConfigError` |
| Configs.CacherAllDefault | xcon/config.py:1114-1137 | when every object of the chain leaves the cacher at `Default`, the cacher is used unless the settings disable the default cacher |
| Configs.ResolveProviders | xcon/config.py:973-986 | the provider list of the chain is `ProvidersWith`: only the environmental provider in env-only mode; otherwise the resolved providers, from the settings or the environmental provider by default |
| Configs.LoneField | xcon/directory.py:154-163 | a lone `{name}` parses to a single format field |
| Configs.PlainThenField | xcon/directory.py:154-163 | literal text followed by a field parses to that text and that field |
| Configs.PlainFieldPlainField | xcon/directory.py:154-163 | two runs of text and field parse to those four parts in order |
| Configs.SubstituteTwoFields | xcon/directory.py:257-264 | a path with service and environment fields only names known fields and is filled in with both |
| Configs.SubstituteOneField | xcon/directory.py:257-264 | a path with one known field is filled in with that field's value |
| Configs.FieldsPresent | xcon/directory.py:156-163 | a path with a field is a format path |
| Configs.StandardFormatsParse | xcon/conf.py:54-59 | the default directories `/{service}/{environment}`, `/{service}` and `/global/{environment}` parse into their literal parts and known fields |
| Configs.StandardFormatsWf | xcon/conf.py:54-59 | the four default directories are well formed |
| Configs.GlobalFromPath | xcon/conf.py:58 | `/global` is the fourth default directory, a plain one |
| Configs.StandardFormatsResolve | xcon/conf.py:54-59 | the default directories resolve to `/service/environment`, `/service`, `/global/environment` and `/global` |
| Configs.ResolveEach | xcon/config.py:1025-1027 | each directory is resolved with the service and environment, in order |
| Configs.StandardDirectories | xcon/config.py:1394-1408 | the settings' directories, resolved, are well formed |
| Configs.ExportDirectories | xcon/config.py:1020-1023 | one export directory per exported service, each `Directory(service, environment, is_export)` |
| Configs.ExportDirectoryPath | xcon/directory.py:184-204 | an export of a plain service is the directory `/service/export/environment` |
| Configs.ExportDirectoriesFailFirst | xcon/config.py:1022-1023 | the first export that cannot be made is the error of the whole list |
| Configs.ResolvedDirectoriesWf | xcon/config.py:1003-1007 | every resolved directory of the chain is well formed |
| Configs.AddExports | xcon/config.py:1020-1027 | the export loop computes `WithExports`: the directories, then the export directories, each once |
| Configs.WithExportsWf | xcon/config.py:1020-1027 | the directories with the exports added are well formed |
| Configs.DirectoriesWith | xcon/config.py:988-1029 | the resolved directories of the chain have no repeats |
| Configs.ResolveDirectories | xcon/config.py:988-1029 | `_resolve_directories_with_cursor` computes `DirectoriesWith` |
| Configs.DirectoryChainWith | xcon/config.py:1380-1392 | the directory chain holds no directory twice |
| Configs.ResolveDirectoryChain | xcon/config.py:1380-1392 | `_directory_chain_with_cursor` computes `DirectoryChainWith` |
| Configs.FirstListedIsFirst | xcon/config.py:1193-1201 | an override or default is found exactly when some object of the chain lists the name, and it is the one on the first such object |
| Configs.LookupInProviders | xcon/config.py:1209-1242 | the provider lookup computes `ProviderLookup`, raising what resolving the chain, a source's `get_item` or `cache_items` raises |
| Configs.GetItemWith | xcon/config.py:1181-1262 | `_get_item` computes `ItemOf`, including the exceptions the provider part raises |
| Configs.OverrideWins | xcon/config.py:1193-1204 | an override on the chain is returned as is, the first one found, whatever the providers answer |
| Configs.SkippedProvidersFindOnlyChainValues | xcon/config.py:1209-1255 | with the providers skipped, nothing is cached and an item is found exactly when an object of the chain has an override or, unless skipped, a default for the name |
| Configs.ProviderResultKept | xcon/config.py:1237-1251 | with no override, a provider's item that is not a missing-value marker is the answer |
| Configs.DefaultReplacesMissing | xcon/config.py:1251-1255 | a missing provider result is replaced by the first default on the chain |
| Configs.MissingWithoutDefault | xcon/config.py:1251-1255 | with no override and no default anywhere on the chain, the provider result is the answer |
| Configs.CachedOnlyWithCacher | xcon/config.py:1215-1235 | a result goes to the cacher only when the service is not `global`, env-only mode is off, the chain resolves to a cacher and some provider is cacheable |
| Configs.GetIgnoresCase | xcon/config.py:960 | `get` gives the same answer for a name and its lower-cased form |
| Configs.GetReturnsOverride | xcon/config.py:890-894 | `get` returns the first override on the chain, or the caller's default when that override's value is `None` |
| Configs.GetFallsBackToCallersDefault | xcon/config.py:890-894 | with no override, no default and no provider value anywhere, `get` returns the caller's default |
| Configs.GetPropagatesProviderError | xcon/config.py:1237-1256 | with no override, an exception from the provider part leaves `_get_item` and `get`: no default replaces it |
| Configs.IndexOf | xcon/config.py:1350-1355 | the position of the config in the context, the first at which it appears, or the length when it is absent |
| Configs.ThroughShape | xcon/config.py:1357-1366 | the collected parents are the other configs of the context in order, up to and including the first that does not use its parent |
| Configs.ThroughStep | xcon/config.py:1350-1370 | the collection loop skips the config itself, stops after a config that does not use its parent, and otherwise goes on |
| Configs.ParentChainMembers | xcon/config.py:1325-1378 | every parent is a config of the context other than the config itself |
| Configs.IsolatedHasNoParents | xcon/config.py:1375-1376 | a config that does not use its parent and is not in the context has no parents |
| Configs.ParentChainTakesAllUsers | xcon/config.py:1350-1370 | when every config of the context uses its parent, a config that uses its parent has all the others as parents, in order |
| Configs.OverrideDirectoryParses | xcon/config.py:539-542 | overrides sit in the plain directory `/_override` |
| Configs.UserDefaultDirectoryParses | xcon/config.py:790-793 | defaults set on a config sit in the plain directory `/_default/user-set` |
| Configs.SetThenGetOverride | xcon/config.py:505-582 | after setting an override, reading it back under any case of the name gives the value set (`Default` removes it); other names are unchanged |
| Configs.SetThenGetDefault | xcon/config.py:769-823 | after setting a default, reading it back under any case of the name gives the value set (`Default` removes it); other names are unchanged |
| Configs.DefaultItems | xcon/config.py:349-351 | one default item per entry of `defaults`, in order |
| Configs.ConvertDirectories | xcon/config.py:388-392 | each given directory or path is turned into a directory, `Default` is kept, in order |
| Configs.ConvertDirectoriesFailFirst | xcon/config.py:389-391 | the first path that does not parse is the error of the whole list |
| Configs.ConvertEach | xcon/config.py:378-394 | the directories setter's loop: the ordered set of the converted entries, or the first conversion error |
| Configs.ConvertedWf | xcon/config.py:389-391 | converted directories are well formed |
| Configs.DedupEntriesWf | xcon/config.py:392 | removing repeats keeps the entries well formed |
| Configs.States | xcon/config.py:1325-1378 | the snapshot of each config of a chain, in order |
| Configs.ValidStates | xcon/config.py:1325-1378 | the snapshots of valid configs are well formed |
| Configs.Config.constructor | xcon/config.py:143-354 | a new config has no overrides, the given defaults, the given providers and directories each once, exports `[Default]`, and the given cacher, service, environment and use-parent flag |
| Configs.Config.SetOverride | xcon/config.py:505-547 | the override listing of this config gets the item for the name, or loses it when the value is `Default` |
| Configs.Config.RemoveOverride | xcon/config.py:584-624 | the lower-cased name leaves this config's overrides only |
| Configs.Config.GetOverride | xcon/config.py:549-582 | the override set directly on this config, or `Default` when there is none |
| Configs.Config.SetDefault | xcon/config.py:769-799 | the default listing of this config gets the item for the name, or loses it when the value is `Default` |
| Configs.Config.RemoveDefault | xcon/config.py:825-843 | the lower-cased name leaves this config's defaults only |
| Configs.Config.GetDefault | xcon/config.py:801-823 | the default set directly on this config, or `Default` when there is none |
| Configs.Config.AddProvider | xcon/config.py:405-418 | the provider is appended unless it is already listed; nothing else changes |
| Configs.Config.AddDirectory | xcon/config.py:420-435 | the directory is appended unless it is already listed; the config itself is returned |
| Configs.Config.AddExport | xcon/config.py:437-472 | the service is appended to the exports unless already there |
| Configs.Config.SetExports | xcon/config.py:474-495 | the exports become the given services, each once |
| Configs.Config.SetProviders | xcon/config.py:396-403 | the providers become the given ones, each once |
| Configs.Config.SetDirectories | xcon/config.py:378-394 | the directories become the converted ones, each once; a path that does not parse fails and changes nothing |
| Configs.Config.SetService | xcon/config.py:676-679 | only the service changes |
| Configs.Config.SetEnvironment | xcon/config.py:671-674 | only the environment changes |
| Configs.Config.SetCacher | xcon/config.py:706-712 | only the cacher choice changes |
| Configs.Config.ParentChain | xcon/config.py:1325-1378 | the loop over the context computes `ParentChainOf` |
| Configs.Config.ChainOf | xcon/config.py:49-82 | the cursor walk visits this config, then each parent in order |
| Configs.Config.ChainStates | xcon/config.py:74-82 | the snapshots visited by the cursor, all well formed |
| Configs.Config.GetItem | xcon/config.py:927-968 | the item `_get_item` finds for the lower-cased name on this config's chain, or the exception it raises |
| Configs.Config.Get | xcon/config.py:845-894 | the value `get` returns, as `GetOf` on this config's chain, or the exception it raises |
| Configs.Config.ResolvedService | xcon/config.py:1410-1415 | the first service set on the chain, else the settings' service, else `global` |
| Configs.Config.ResolvedEnvironment | xcon/config.py:1417-1422 | the first environment set on the chain, else the settings' environment, else `all` |
| Configs.Config.ResolvedCacher | xcon/config.py:714-725 | whether the chain resolves to a cacher, as `CacherWith` decides |
| Configs.Config.ProviderChainOf | xcon/config.py:1077-1094 | the provider chain of the resolved providers |
| Configs.Config.DirectoryChainOf | xcon/config.py:743-753 | the directory chain of the resolved directories |
| ChangeHandler.GetOrBlankDict | xcon/serverless_files/config_manager/change_handler.py:81-94 | the dictionary under the key when the value is a dictionary holding a dictionary there, and an empty one in every other case |
| ChangeHandler.Candidates | xcon/serverless_files/config_manager/change_handler.py:19-29 | the four places the path may be, in the order they are tried |
| ChangeHandler.EventPathIsFirstTruthy | xcon/serverless_files/config_manager/change_handler.py:19-34 | the path is the first truthy candidate; the event is rejected exactly when all four are falsy |
| ChangeHandler.ChangeQuery | xcon/serverless_files/config_manager/change_handler.py:36-62 | a query names a lower-cased variable and looks beside `/_nonExistent` in one directory |
| ChangeHandler.ParameterPathQuery | xcon/serverless_files/config_manager/change_handler.py:46-62 | a parameter path `directory/name` queries the lower-cased `name` in `directory`, whose case is kept |
| ChangeHandler.SecretArnQuery | xcon/serverless_files/config_manager/change_handler.py:36-62 | a secret ARN `...:directory/name-SUFFIX` queries the lower-cased `name` in `directory` |
| ChangeHandler.PathWithoutDirectoryRejected | xcon/serverless_files/config_manager/change_handler.py:46-54 | a path with no `/` is rejected for lacking a directory and a name |
| ChangeHandler.EventWithoutPathRejected | xcon/serverless_files/config_manager/change_handler.py:31-34 | an event with no truthy path in any of the four places is rejected |

## Left out

- AWS clients (the SSM paginator, Secrets Manager list and get, DynamoDB query, scan, put and `batch_writer`) are replaced by oracles given as parameters. The memoised SSM paginator and the lazily created boto table resource are therefore not modelled.
- When a batch put fails part-way, the model does not say which rows were still written. The put's exception (`putError`) is handled after the writes.
- Logging is not modelled: `log_about_items`, `_log_about_item_retrieval`, the `places_checked` metadata, the change handler's `log.info`, and the message text of `log_ignored_aws_exception`.
- Thread names and supplemental metadata are not modelled.
- The interning caches `_path_to_directory_cache` and `_resolve_cache` are not modelled. They are identity optimisations, and a `Directory` here is a value.
- The full `string.Formatter` grammar is narrowed to text, `{name}` fields and doubled braces, as directory paths use them.
- The xinject machinery (`XContext`, `Dependency.grab`, `Config.proxy`) is not modelled. The context is an explicit sequence of `Config` objects, and the cursor walk is resolution over their snapshots.
- The `created_at` timestamp is not part of the item model: neither its JSON field nor its ISO-8601 parsing is modelled. No lookup depends on it.
- The base64 decoding of `SecretBinary` is not modelled. A secret value is the string the store returns.
- `get_bool`, `get_value`, `__getitem__` and `__setitem__` are not modelled. They are thin wrappers over `get` and `set_override`; `get_bool` also parses with `bool_value`, which is foreign code.
- Clearing the local caches through `ignore_local_caches` in `get` is not modelled. It is a call to `reset_cache`, modelled as `LocalProviderCache.ResetCache`.
- `_get_special_non_provider_item_with_cursor` and the hard-coded `/_default/hard-coded` items are not modelled. No operation of the resolution engine depends on them.
- `_replace_standard_directories` raises "Deprecated/Unused" and is not modelled.
- `_ConfigDynamoTable.delete_items` and `get_all_items` are not modelled: the code uses them only for maintenance and tests. `_verified_table_status` is never read.
- The DynamoDB cacher's `_table.append_source = " - via cacher"` in its constructor sets an attribute on a throw-away table, so it has no effect. Tables the cacher reads use the cacher source text directly.
- `DirectoryListing.get_any_item` and the `directory` metadata on a listing are not modelled. The cacher's "filled" mark on a listing is the presence of the listing's key in the cacher's cache.
- Loading settings is not modelled: xsettings, `ConfigSettings`, `ConfigRetriever` and the environment-variable retrievers of `xcon/conf.py`. The settings are a value with `xcon/conf.py`'s defaults. `xcon_settings.defaults` is not part of the model because the resolution code never reads it.
- `xcon/pytest_plugin.py`, `xcon/types.py` and `xcon/providers/default.py` are not part of this model.
- The change handler's commented-out delete of cached items is not modelled, and neither is anything it would do after building the query.
- Thread safety is not modelled: the code holds no locks.
- Configs.Config.constructor: takes its directories already converted to `Directory` values. The setter that parses paths is `Config.SetDirectories`.
- Configs.Config.AddDirectory: takes a `Directory` or `Default`. The source stores a string argument as it is, without parsing it into a `Directory`.
- Text.Lower: case folding is narrowed to ASCII. Only `A`-`Z` are lower-cased; Python's `str.lower` also folds other letters, and for some (`İ`) it changes the length.
- Directories.Value: a value is text or an integer. The dict and list values that `DirectoryItemValue` also allows (`xcon/directory.py:291`) are not modelled, and neither is their JSON form.
- Directories.GetTtl: a `ttl` that is a numeric string is refused. The source's `int(ttl)` would parse it.
- Providers.AwsStoreListing: the store's own expiry is modelled at the time it is given. Its callers (`SsmParamStore.SsmParamStoreProvider.FetchDirectory`, `Dynamo.DynamoProvider.FetchDirectory` and the `ItemForDirectory`/`ItemOnlyForDirectory` methods above them) pass it the same clock reading they read the cache with. The source reads the clock again when it stores a listing, so a fetch that crosses the expiry time and drops the other listings is not modelled.
