# yapi-to-ts generator core in Dafny

This project models the `Generator` of the vscode-yapi-to-ts extension. The
extension reads a YApi documentation server and writes TypeScript request
functions for its interfaces. The model covers how the generator resolves
and aggregates the server's metadata:

- **Prompts.** `prepare` classifies what the user typed into the input boxes
  as a URL or as a token. `setConfig` installs the default configuration.
- **Token expansion.** Each project is expanded into one project per token.
- **Category ids.** The `id` directive of a category configuration resolves
  to a list of category ids through wildcard, dedupe, exclusion, filtering
  and the JavaScript default sort.
- **Configuration merge.** The synthetical configuration merges the server,
  project and category layers, then fills in `mockUrl`, `target`, `devUrl`
  and `prodUrl`.
- **Remote calls.** `fetchProject`, `fetchExport`, `fetchInterfaceList` and
  `fetchProjectInfo` are modelled with their memo caches. The server is an
  abstract function from a request to a reply.
- **Preprocessing.** The interfaces of one id are preprocessed and sorted
  by id.
- **Fragments and chunks.** Each interface becomes a fragment with weights
  `[serverIndex, projectIndex, categoryIndex, categoryIndex2]` and a category
  UID. The fragments are grouped by output path into chunks, with preambles
  and `"\n\n"` joins.
- **Output files.** The chunks are pushed into the output-file dictionary,
  which only ever grows.
- **Interface code.** The pure helpers of `generateInterfaceCode`: the
  parameter-name union types, request headers, request body type, comment
  switches and extra-tag placement.

Modules:

| module | holds |
|---|---|
| `Wrappers` | `Option` and `Result` |
| `Text` | JavaScript `String(n)`, string `<=`, `join`, `filter(Boolean)`, trailing and leading character runs |
| `Seqs` | lodash `uniq`, `filter`, `groupBy` |
| `Sorting` | `Array.prototype.sort` as a stable sort by key, and its ordering, permutation and stability lemmas |
| `Config` | configuration values, layers and token expansion |
| `Remote` | the `fetchApi` error rule, base-path normalisation, export derivation, the interface-list lookup, environment lookup and the memo key |
| `CategorySelection` | the category-id chain |
| `Merge` | the synthetical configuration |
| `Aggregation` | weights, UIDs, preambles and chunks |
| `OutputFiles` | the `outputFileList` dictionary, as a class |
| `InterfaceCode` | the helpers of `generateInterfaceCode` |
| `Prepare` | the input classifier |
| `Generation` | the `Generator` class, with its memo caches and the `generate` loops, each method proved against a specification function |

### How `generate` is specified

`Generation.GenerateSpec` states what `generate` resolves to:

- `RunServers` walks the servers.
- `RunProjects` walks the single-token projects of one server.
- `CategoriesFrom` walks the category configurations of one project.
- `IdsFrom` walks the selected ids of one category configuration.

Each method of the class is proved to carry out one of these steps. Its
`ensures` ties the method's outcome and the new memo and output state to the
function. Besides the memo tables and the output files, the state the
functions thread along records, for each output path, the chunks whose codes
were pushed onto it (`PushChunkGroups`). The output-file class keeps the same
record as ghost state. Its invariant says that each file's content is exactly
the codes of its recorded chunks, and that those chunks are in ascending
weight order. `Generate` states both results: its outcome is `GenerateSpec`,
and on success the recorded chunks are those of `GenerateRun` and each file
is the codes of its chunks in weight order.

### Where the code and the repository's description differ

The model follows the code in each of these cases:

- **Failed requests.** `memoize` caches the promise, so a failed request is
  cached too. A repeated call with the same key gets the same failure back.
- **Id order.** `categoryIds.sort()` has no comparator, so ids are ordered by
  their decimal strings, not numerically: `[9, 10]` becomes `[10, 9]`.
- **Entry configuration.** An output file's `syntheticalConfig` is that of
  the first category id to reach the path, because line 263 only creates
  missing entries. It is never replaced by a later or heavier one. In the
  code, line 263 runs after the awaits at lines 204 and 219, and the ids run
  concurrently, so "first" means first to finish those requests. The model
  runs the ids in declaration order, so there it is the first declared.
- **Order across category configurations.** Line 280 sorts only the chunks
  of one category configuration. Line 281 pushes them after that
  configuration's own `Promise.all`, while the configurations, projects and
  servers run concurrently. So when several configurations push onto one
  file, their pushes arrive in the order their requests complete. The model
  runs them in declaration order, which is ascending weight order, so the
  weight order it proves for a whole file holds in the code only when the
  requests complete in declaration order.
- **Category UID.** The UID is built from all four indices,
  `_${serverIndex}_${projectIndex}_${categoryIndex}_${categoryIndex2}`.

## Model

| member | source | states |
|---|---|---|
| Aggregation.WeightsLeTotalPreorder | src/command/generator/index.ts:249 | the lexicographic comparison of weights used by `sortByWeights` is total and transitive |
| Aggregation.WeightsLeAntisymmetric | src/command/generator/index.ts:236 | two weights that compare both ways are equal |
| Aggregation.UnderscoreJoinedInjective | src/command/generator/index.ts:234 | equally many indices rendered with `_` separators determine the indices |
| Aggregation.CategoryUIDInjective | src/command/generator/index.ts:234-236 | two category UIDs are equal if and only if their weights are equal |
| Aggregation.CategoryChunks | src/command/generator/index.ts:246-247 | one chunk per distinct output path of the fragments |
| Aggregation.CategoryChunksByPath | src/command/generator/index.ts:246-274 | chunk i is for the i-th output path in first-seen order, and it is assembled from exactly that path's fragments, of which there is at least one |
| Aggregation.CategoryChunksDistinctPaths | src/command/generator/index.ts:246-247 | no two chunks of one category id share an output path |
| Aggregation.ChunkCodesInWeightOrder | src/command/generator/index.ts:259 | the weight-sorted group is ordered by weights, is a permutation of the group, and keeps fragments with equal weights in their original order |
| Aggregation.ChunkWeightsAreGreatest | src/command/generator/index.ts:272 | the weights reported for a chunk are at least those of every fragment in its group |
| Aggregation.ChunkWeightsOccur | src/command/generator/index.ts:272 | the reported weights are those of one of the group's fragments |
| Aggregation.ChunkPreambles | src/command/generator/index.ts:248-258 | there is one preamble per distinct UID of the group, duplicate-free, in first-seen order over the weight-sorted group; every UID of the group has one; under `typesOnly` each preamble is empty |
| Aggregation.ChunkTypesOnly | src/command/generator/index.ts:248-262 | under `typesOnly` a chunk is just its non-empty codes in weight order, joined with blank lines |
| Aggregation.ChunkPreamblesFirst | src/command/generator/index.ts:248-262 | without `typesOnly` the chunk is every preamble followed by the non-empty codes in weight order, joined with blank lines |
| Aggregation.UniformChunk | src/command/generator/index.ts:248-273 | when all fragments share one UID and one set of weights, the chunk is that UID's preamble followed by the codes in production order, and it reports the shared weights |
| Aggregation.CategoryChunksWeights | src/command/generator/index.ts:269-273 | every chunk of one category id reports that id's weights |
| CategorySelection.ExcludedMembers | src/command/generator/index.ts:171 | an absolute value is excluded exactly when its non-zero negation is among the ids |
| CategorySelection.JsSortIdsMembers | src/command/generator/index.ts:176 | sorting neither adds nor loses an id |
| CategorySelection.SelectCategoryIdsMembers | src/command/generator/index.ts:163-174 | an id is selected if and only if it is a known category, was asked for directly or through the wildcard, and is not cancelled by a negative entry, whatever their order |
| CategorySelection.SelectCategoryIdsNonNegative | src/command/generator/index.ts:171-172 | no selected id is negative |
| CategorySelection.SelectCategoryIdsWildcard | src/command/generator/index.ts:165-166 | with `0` in the directive, a known id is selected if and only if it is not cancelled |
| CategorySelection.StrLeIsTotalPreorder | src/command/generator/index.ts:176 | the string order the default sort uses is a total preorder |
| CategorySelection.IntStringOrderAntisymmetric | src/command/generator/index.ts:176 | ids whose decimal strings compare both ways are equal |
| CategorySelection.CandidatesNoDup | src/command/generator/index.ts:169-174 | after `uniq` and the two filters no id repeats |
| CategorySelection.SelectCategoryIdsOrdered | src/command/generator/index.ts:169-176 | the selection is duplicate-free and ascending in the string order of the ids' decimal forms |
| CategorySelection.SelectCategoryIdsUnique | src/command/generator/index.ts:176 | any duplicate-free, string-ordered list of the selected ids equals the selection |
| CategorySelection.SmallIdsSorted | src/command/generator/index.ts:176 | single-digit ids ascend numerically, and `[10, 9]` is in string order |
| CategorySelection.WildcardWithExclusionExample | src/command/generator/index.ts:163-176 | known ids 1 to 4 and the directive `[0, -2]` select `[1, 3, 4]` |
| CategorySelection.WildcardWithExclusionMembers | src/command/generator/index.ts:163-174 | the same directive selects exactly the ids 1, 3 and 4 |
| CategorySelection.WildcardReorderExample | src/command/generator/index.ts:163-176 | known ids 1 to 3 and the directive `[3, 1, 2, 0]` select `[1, 2, 3]` |
| CategorySelection.WildcardReorderMembers | src/command/generator/index.ts:163-174 | the same directive selects exactly the ids 1, 2 and 3 |
| CategorySelection.StringSortExample | src/command/generator/index.ts:176 | ids 9 and 10 come out as `[10, 9]` |
| Config.ExpandTokens | src/command/generator/index.ts:144-152 | every expanded project holds a single token |
| Config.ExpandTokensAppend | src/command/generator/index.ts:144-152 | expansion distributes over concatenation, so projects keep their relative order |
| Config.ExpandTokensOfOne | src/command/generator/index.ts:146-149 | a project with tokens t1..tn becomes n projects; the i-th holds ti and every other field unchanged |
| Config.ExpandTokensLength | src/command/generator/index.ts:144-152 | the expansion yields one project per token overall |
| Generation.Preprocessed | src/command/generator/index.ts:205-216 | preprocessing never lengthens the list |
| Generation.PrepareInterfacesOrdered | src/command/generator/index.ts:205-217 | the prepared list is ordered by interface id and is a permutation of the preprocessed interfaces; without a callback these are the fetched ones, each carrying the project |
| Generation.PreprocessedWithoutCallback | src/command/generator/index.ts:205-216 | without a preprocessing callback every interface is kept in order, with `_project` set |
| Generation.MakeFragments | src/command/generator/index.ts:219-244 | the fragments fail if and only if some interface fails; on success there is one fragment per interface, in order, each with the id's weights and its UID |
| Generation.MergedFields | src/command/generator/index.ts:155-158 | `serverUrl` of the merge comes from the project when it has one, else from the server; `token` always comes from the project |
| Generation.MemoProjectIdempotent | src/command/generator/index.ts:346-358 | asking `fetchProject` again with the same key returns the same answer and leaves the cache as it is |
| Generation.MemoExportIdempotent | src/command/generator/index.ts:360-385 | asking `fetchExport` again with the same key returns the same answer and leaves both caches as they are |
| Generation.EnsureEntries | src/command/generator/index.ts:263-268 | the paths become entries; existing entries are unchanged; new ones get this configuration and empty content |
| Generation.PushGroups | src/command/generator/index.ts:279-282 | the pushes add no entry and remove none |
| Generation.ChunksCarry | src/command/generator/index.ts:269-273 | every chunk of one category id has its weights and an output path among the chunk paths |
| Generation.IdsFromKeepsEntries | src/command/generator/index.ts:263-277 | every chunk collected over the ids of a category configuration has an output-file entry |
| Generation.RunServersNext | src/command/generator/index.ts:142-153 | one server's projects carried out are one step of `generate`, or its first failure |
| Generation.PushGroupsContent | src/command/generator/index.ts:279-282 | each path pushed to gets its group's codes appended after its old content, with its configuration unchanged; every other entry stays as it was |
| Generation.PushGroupsIsPushed | src/command/generator/index.ts:279-282 | pushing the distinct paths one after another equals pushing all of them |
| Generation.GroupCodesOrdered | src/command/generator/index.ts:279-281 | the group pushed onto one path is ordered by weights and is a permutation of that path's chunks |
| Generation.EnsureChunks | src/command/generator/index.ts:263-268 | creates the missing entries for the chunks' paths with this configuration, as `EnsureEntries` states, and records no chunk |
| Generation.PushAllowed | src/command/generator/index.ts:280-281 | a path not yet pushed to holds only chunks no heavier than those of the current category configuration |
| Generation.PushedUpToStep | src/command/generator/index.ts:281 | pushing chunks of the current configuration marks the path as done |
| Generation.PushGroup | src/command/generator/index.ts:280-281 | appends the codes of one path's group, sorted by weights, to its content, and records that sorted group after the path's earlier chunks; the path is then done for this category configuration |
| Generation.GroupWeights | src/command/generator/index.ts:280 | one path's sorted group is in ascending weight order and all its chunks belong to the current category configuration |
| Generation.PushChunks | src/command/generator/index.ts:279-282 | the output files after the pushes are `PushGroups` of the chunks, the recorded chunks are `PushChunkGroups` of them, and every recorded chunk now precedes the next category configuration |
| Generation.MoveFirst | src/command/generator/index.ts:279 | in a duplicate-free list of paths, the next path to push has not been pushed yet |
| Generation.Generator.constructor | src/command/generator/index.ts:346-385 | a fresh generator has empty memo caches, no configuration, an empty URL, token and working directory, and a valid (empty) request record |
| Generation.Generator.Prepare | src/command/generator/index.ts:58-111 | no workspace rejects and changes nothing; otherwise sets the working directory; a dismissed box rejects; a URL is stored without trailing slashes and written out, and a valid token must follow; a token takes the URL from the storage file or, when that is empty, from a second box; on success the token is valid and the URL is non-empty |
| Generation.Generator.SetConfig | src/command/generator/index.ts:113-137 | installs one server at the prepared URL with one project holding the prepared token, which token expansion leaves unchanged |
| Generation.Generator.FetchProject | src/command/generator/index.ts:346-358 | answers from the cache for a known key, else makes exactly one request and caches its answer, failure included; the answer is the server's for this server and token when no vertical bar confuses the key |
| Generation.Generator.FetchExport | src/command/generator/index.ts:360-385 | answers from the cache for a known key, else fetches the project and makes exactly one export request, whose outcome is cached |
| Generation.Generator.StoreExport | src/command/generator/index.ts:360-385 | caches the export under its key and records one export request |
| Generation.Generator.FetchProjectInfo | src/command/generator/index.ts:403-423 | the project through the memo, then its category menu, as `ProjectInfoMemo` states |
| Generation.Generator.FetchInterfaceList | src/command/generator/index.ts:388-401 | the export through the memo, then the list of the first matching category, as `InterfaceListMemo` states |
| Generation.Generator.GenerateId | src/command/generator/index.ts:189-274 | one category id: fails with `IdsFrom`'s error, or `IdsFrom` from the old state equals `IdsFrom` from the next id in the new state, with this id's chunks appended; every chunk has an entry and this id's weights; no entry is lost and no chunk is recorded |
| Generation.Generator.GenerateIds | src/command/generator/index.ts:178-277 | all ids of a category configuration: the outcome is `IdsFrom` from the old state, either its error or the collected chunks in the new state |
| Generation.Generator.GenerateCategory | src/command/generator/index.ts:160-283 | one category configuration carries `CategoriesFrom` one step forward, or fails with its error; every recorded chunk then precedes the next configuration |
| Generation.Generator.GenerateCategories | src/command/generator/index.ts:159-284 | all category configurations of a project agree with `CategoriesFrom` |
| Generation.Generator.GenerateProject | src/command/generator/index.ts:154-285 | one project carries `RunProjects` one step forward, or fails with its error |
| Generation.Generator.GenerateServer | src/command/generator/index.ts:143-287 | all projects of a server, expanded by token, agree with `RunProjects` |
| Generation.Generator.Generate | src/command/generator/index.ts:139-291 | the result is `GenerateSpec` of the configuration and the old caches; on success the recorded chunks are those `GenerateRun` records, each file's content is exactly the codes of its recorded chunks, and those chunks are in ascending weight order |
| InterfaceCode.ParseQuotedJoin | src/command/generator/index.ts:462 | quote-free names, joined with the union separator (quote, space, bar, space, quote) and closed with a quote, read back as the names |
| InterfaceCode.NameUnionTypeRoundTrip | src/command/generator/index.ts:460-467 | the union type of parameter or query names reads back as those names (`string` for none) |
| InterfaceCode.Lower | src/command/generator/index.ts:593 | lower-casing keeps the length, leaves no upper-case ASCII letter, and changes a character only by moving an upper-case ASCII letter to lower case |
| InterfaceCode.LowerIdempotent | src/command/generator/index.ts:593 | lower-casing twice is lower-casing once |
| InterfaceCode.LowerIsContentType | src/command/generator/index.ts:593 | a name lower-cases to `content-type` exactly when it spells content-type in any mix of ASCII case |
| InterfaceCode.RequestHeadersLastWins | src/command/generator/index.ts:591-598 | a header name is kept if and only if some header with it is not `content-type`, and the last such header's value wins |
| InterfaceCode.RequestHeadersDropContentType | src/command/generator/index.ts:593 | no `content-type` header survives, whatever its case |
| InterfaceCode.RequestBodyType | src/command/generator/index.ts:599-602 | `query` for GET; otherwise the declared body type, or `none` when there is none |
| InterfaceCode.SwaggerOverridesComment | src/command/generator/index.ts:480-490 | a Swagger server never gets tags, update times or links, and its other switches are those of the configuration |
| InterfaceCode.CommentSwitchDefaults | src/command/generator/index.ts:471-478 | off Swagger, a switch is off exactly when it is set to a falsy value other than `undefined` |
| InterfaceCode.PlaceExtraTags | src/command/generator/index.ts:526-533 | the loop as written yields the start tags reversed, then the summary, then the end tags in order |
| InterfaceCode.PlaceOne | src/command/generator/index.ts:529 | one more tag is put in front when it goes to the start, and appended otherwise |
| InterfaceCode.StartTagsReversed | src/command/generator/index.ts:528-532 | as written, two start tags come out swapped; placed in order they do not |
| InterfaceCode.StartItemsAreStartTags | src/command/generator/index.ts:529 | the start items are exactly the start tags, in declaration order |
| InterfaceCode.PlacedInOrderShape | src/command/generator/index.ts:526-533 | placed as intended, the start tags come in declaration order before the summary, the summary is kept whole, the end tags follow in declaration order, and every tag appears once |
| InterfaceCode.EndItemsAreEndTags | src/command/generator/index.ts:529 | the end items are exactly the end tags, in declaration order |
| InterfaceCode.StartEndCount | src/command/generator/index.ts:528-532 | every tag goes to exactly one side |
| Merge.SynthesizeLastWriteWins | src/command/generator/index.ts:193-198 | every inherited field comes from the innermost layer that defines it, and is present exactly when some layer defines it |
| Merge.SynthesizeComputedFields | src/command/generator/index.ts:197-201 | `mockUrl` is the project's; `target` is the layered one when truthy, else `typescript`; `devUrl` and `prodUrl` are the domains of the named environments |
| OutputFiles.GrowsTransitive | src/command/generator/index.ts:263-281 | "keeps every entry, configuration and content prefix" is transitive |
| OutputFiles.AllPrecedeLater | src/command/generator/index.ts:236 | moving the bound forward in declaration order keeps every recorded chunk before it |
| OutputFiles.OrderAppend | src/command/generator/index.ts:280-281 | chunks in weight order, none lighter than any chunk already on the path, keep the path's chunks in weight order |
| OutputFiles.OutputFileList.constructor | src/command/generator/index.ts:140 | the dictionary starts empty, with no chunk recorded |
| OutputFiles.OutputFileList.Ensure | src/command/generator/index.ts:263-268 | creates the entry with this configuration and no content only when the path has none; an existing entry is never overwritten; no chunk is recorded |
| OutputFiles.OutputFileList.Push | src/command/generator/index.ts:281 | appends the codes of the given chunks to the path's content, keeps its configuration, and records those chunks after the path's earlier ones; chunks no lighter than those already there keep the path in weight order |
| Prepare.UrlAndTokenDisjoint | src/command/generator/index.ts:72-74 | no input is both a URL and a token |
| Prepare.ClassifyShape | src/command/generator/index.ts:72-90 | the input is a URL exactly when the URL test passes and a token exactly when the token test passes; a URL is the typed text minus its trailing slashes; a token is the typed text |
| Prepare.StrippedUrlKeepsColon | src/command/generator/index.ts:72-75 | a stripped URL still starts with `http` and is at least five characters long |
| Prepare.StrippedUrlKeepsScheme | src/command/generator/index.ts:75 | when the host part holds anything but slashes, the stripped URL keeps `http://` or `https://` |
| Prepare.SlashOnlyUrl | src/command/generator/index.ts:72-75 | `http://` followed by five slashes passes the URL test and is stored as `http:` |
| Remote.FetchApi | src/command/generator/index.ts:340-343 | the call fails exactly for a failed request or a non-zero `errcode`, with `errmsg` as the error; otherwise the answer is the data |
| Remote.EnvDomain | src/command/generator/index.ts:414-421 | the domain of the first environment with the requested name, or `''` when there is none |
| Remote.NormalizeBasePathTrims | src/command/generator/index.ts:351 | the base path is the raw one without its leading and trailing slashes, behind a single `/`, or empty when nothing is left |
| Remote.NormalizeBasePathShape | src/command/generator/index.ts:351 | a normalised base path is empty or starts with exactly one `/`, never ends with `/`, and normalising it again changes nothing |
| Remote.DeriveExportPrefixesPaths | src/command/generator/index.ts:369-382 | every category and interface is kept in order; each interface path gets the base path as a prefix, with only its page link otherwise changed; an absent list becomes empty |
| Remote.FindInterfaceList | src/command/generator/index.ts:388-401 | the list of the first category whose first interface has the id, each interface carrying that category, or empty when none matches |
| Remote.MemoKeyInjective | src/command/generator/index.ts:357 | server URLs without a vertical bar give distinct keys to distinct server and token pairs |
| Remote.MemoKeyCollision | src/command/generator/index.ts:357 | with a vertical bar in the server URL two different pairs share one key |
| Seqs.Uniq | src/command/generator/index.ts:169 | `uniq` has no duplicates and holds exactly the values of its input |
| Seqs.UniqFirstSeenOrder | src/command/generator/index.ts:169 | the values of `uniq` come in the order of their first occurrence |
| Seqs.UniqOfNoDup | src/command/generator/index.ts:249 | `uniq` of a duplicate-free list is the list itself |
| Seqs.Filter | src/command/generator/index.ts:172-174 | filtering never lengthens a list |
| Seqs.FilterMembers | src/command/generator/index.ts:172-174 | the filtered list holds exactly the elements that pass |
| Seqs.FilterNoDup | src/command/generator/index.ts:172-174 | filtering keeps a list duplicate-free |
| Seqs.HavingMembers | src/command/generator/index.ts:246 | one key's group holds exactly the elements with that key |
| Seqs.GroupKeys | src/command/generator/index.ts:247 | the group keys are duplicate-free and are exactly the keys that occur |
| Seqs.GroupBy | src/command/generator/index.ts:279 | one group per key |
| Seqs.GroupByPartitions | src/command/generator/index.ts:246 | each group is non-empty, holds exactly the elements with its key, and keeps their order |
| Sorting.SortByPermutes | src/command/generator/index.ts:217 | sorting is a permutation |
| Sorting.SortBySorted | src/command/generator/index.ts:217 | the sorted list is ordered by the key |
| Sorting.SortByStable | src/command/generator/index.ts:249 | elements with equal keys keep their relative order |
| Sorting.SortBySortedIsIdentity | src/command/generator/index.ts:280 | sorting an already ordered list leaves it as it is |
| Sorting.SortedByUnique | src/command/generator/index.ts:176 | two duplicate-free lists ordered by a key that tells elements apart are equal when they hold the same elements |
| Text.NatToString | src/command/generator/index.ts:234 | at least one digit, a single digit exactly below 10, digits only |
| Text.IntToString | src/command/generator/index.ts:176 | a leading `-` exactly for negative values |
| Text.NatToStringInjective | src/command/generator/index.ts:234 | distinct naturals have distinct decimal forms |
| Text.IntToStringInjective | src/command/generator/index.ts:176 | distinct integers have distinct decimal forms |
| Text.StrLeTotal | src/command/generator/index.ts:176 | any two strings compare one way or the other |
| Text.StrLeTransitive | src/command/generator/index.ts:176 | string order is transitive |
| Text.StrLeAntisymmetric | src/command/generator/index.ts:176 | strings that compare both ways are equal |
| Text.StringOrderIsNumericForEqualLength | src/command/generator/index.ts:176 | for naturals with the same number of digits, string order is numeric order |
| Text.StringOrderIsNotNumeric | src/command/generator/index.ts:176 | across digit counts it is not: `"10"` sorts before `"9"` |
| Text.JoinAppend | src/command/generator/index.ts:262 | joining two non-empty lists puts one separator between their joined texts |
| Text.DropEmpty | src/command/generator/index.ts:261 | `filter(Boolean)` leaves exactly the non-empty strings |
| Text.DropEmptyAppend | src/command/generator/index.ts:261 | dropping empties distributes over concatenation, so order is kept |
| Text.DropEmptyKeepsNonEmpty | src/command/generator/index.ts:261 | a list without empty strings is left as it is |
| Text.StripTrailingShape | src/command/generator/index.ts:75 | what is left is a prefix not ending in the character, and everything removed is that character |
| Text.DropLeadingShape | src/command/generator/index.ts:351 | what is left is a suffix not starting with the character, and everything removed is that character |
| Text.StripTrailingIdempotent | src/command/generator/index.ts:99 | stripping trailing slashes twice is stripping them once |

## Left out

- **HTTP.** Everything reached through `got` is left out. Each server
  endpoint is a function from its inputs to a reply, and only the `errcode`
  rule of `fetchApi` is kept.
- **Remote.FetchApi.** When `data` is falsy, the code returns the whole
  reply body. The model returns `data` whatever its value, because reply
  bodies are not modelled as JavaScript values.
- **Concurrency.** The model runs the work of every `Promise.all`
  sequentially, in declaration order. In the code the servers, projects,
  category configurations and ids run concurrently. Two things then depend
  on which requests complete first, and the model fixes both to
  declaration order:
  - which category id creates an output file's entry (line 263, after the
    awaits at lines 204 and 219), and so which `syntheticalConfig` the file
    gets;
  - the order in which different category configurations push onto one file
    (line 281). The weight order `Generation.Generator.Generate` proves for
    a whole file holds in the code only within one configuration's push.
- **Promise sharing.** Because of the sequential run, concurrent callers
  sharing one pending memoised promise are not modelled.
- **`write` and `tsc`.** Writing the files, running `tsc` and removing
  files are left out: child processes and the file system.
- **VS Code.** The input boxes, the storage file and the error messages
  of `prepare` become parameters and results of `Generation.Generator.Prepare`.
  The `cwd` is a plain string. The storage file's content is a plain string
  parameter. So the case where the file is missing is not modelled: there
  `readFileSync` (line 91) throws, and `prepare` rejects after the token has
  already been set.
- **Foreign calls.** These are parameters of the generator (`Hooks`), taken
  as functions of their inputs:
  - `path.resolve`;
  - the user callbacks `outputFilePath` and `preproccessInterface`;
  - the code text of `generateInterfaceCode`, which includes
    `jsonSchemaToType`, the JSON schema helpers, `change-case`, `dayjs` and
    the template.
- **Request-function callbacks.** `getRequestFunctionName`,
  `setRequestFunctionExtraInfo` and the `extraTags` callback are not
  modelled. Extra tags enter `InterfaceCode.PlaceExtraTags` as a list.
- **Template text.** The TypeScript template (lines 561-643) is template
  output, not logic. Escaping inside `JSON.stringify` is not modelled, and
  neither is the `dedent` layout of the preamble: only its four `const`
  lines are kept.
- InterfaceCode.RequestHeaders: the header object is a `map`, so the
  insertion order of its keys, which `JSON.stringify` keeps in the emitted
  template, is not modelled. Which names are kept, and their values, are.
- InterfaceCode.Lower: lower-cases ASCII letters only. JavaScript's
  `toLowerCase` also maps other Unicode letters and can change the length
  (`'İ'` becomes two characters). The lowered name is only compared with
  `content-type`, and the model takes it that no other character lowers to
  one of that word's letters.
- **`sortByWeights`.** It comes from a utility file that is not part of this
  model. It is taken to be a stable lexicographic sort on the weights. Line
  280 is taken to sort the group before line 281 pushes it.
- **Integers.** Ids and indices are unbounded. `String(n)` is modelled for
  the integers the source handles, with no exponent notation.
- **Generation.Generator.FetchProject.** It promises the server's own
  answer for the pair asked about only when neither that server URL nor the
  one that filled the cache entry contains `|`. Two pairs whose key is the
  same share one cache entry (`Remote.MemoKeyCollision`).
- **Other files.** `src/command/initConfig/index.ts`, `src/utils/index.ts`,
  `src/utils/helpers.ts`, `src/extension.ts` and `src/command/index.ts` are
  not part of this model. They are file-system and editor I/O, or command
  registration.

## Findings

| source | as written | input that shows it | evidently intended | confidence | as-written member | corrected member |
|---|---|---|---|---|---|---|
| src/command/generator/index.ts:528-532 | each extra tag with position `start` is `unshift`ed in turn in front of everything placed so far, so the start tags end up in reverse declaration order | two start tags `a`, `b` yield `[b, a, ...summary]` | the start tags in declaration order before the summary, `[a, b, ...summary]`, like the end tags after it | medium, not executed | InterfaceCode.StartTagsReversed | InterfaceCode.PlacedInOrderShape |
