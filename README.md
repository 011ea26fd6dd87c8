# evoselfcode data-generation core in Dafny

This project models the core of evoselfcode, a self-improving code-generation
pipeline. It has two parts.

**The batch generation engine.** Four generators share it:

- `ProblemGenerator` samples problem descriptions until a target count is reached.
- `SkeletonGenerator`, `CodeGenerator` and `RatingGenerator` each transform a
  fixed upstream list into function skeletons, implementations and ratings.

Each generator does the following:

- splits its work into batches of at most `max_concurrent` prompts;
- sends each batch to the language-model service;
- classifies every completion;
- deduplicates each completion by a 16-character content hash, against the
  hash file loaded at start and the pending buffer;
- buffers accepted records in lock-step with their hashes;
- flushes the buffer to the JSONL output before the hash file once it reaches
  `batch_write_size`, and always flushes the remainder at the end.

The code and rating generators give malformed completions one retry round.

**The helpers around it:**

- the ChatML converter of the post-processing stage: hint removal, signature
  and body extraction, the quality gate, field filtering and file statistics;
- the function-name prompt builders and completion parsers;
- the filter chain with per-filter removal statistics;
- the configuration stores: dotted-path get and set, and deep merge;
- record normalisation;
- score extraction for the rating analyser;
- the HTTP client's base-URL normalisation and retry loop.

Modules follow the source files: one `.dfy` file per source module. Four
files are shared:

- `engine.dfy`: the shared `Store` class and the deduplication specification;
- `text.dfy`: Python string methods;
- `json.dfy`: JSON and YAML values;
- `sequences.dfy`: subsequences.

Imperative code keeps its form:

- The generators' loops are methods with loop invariants.
- The buffers and logs are fields of the `Engine.Store` class.
- `FilterChain` and `ConfigManager` are classes.

Each method is proved against a specification function. The properties of
those functions are proved as lemmas:

- uniqueness of uids;
- every hash having its record;
- acceptance in order;
- the batch partition;
- counter sums;
- round trips and idempotence.

Outside the model, each external service is replaced by a value or a parameter:

- The remote service is a given sequence of replies per batch. A reply beyond
  that sequence is a failed request.
- Files are the lines read and the records appended during the run.
- SHA-256 is a parameter `h` returning a 16-character uid.
- `json.loads` and `yaml.safe_load` are parameters returning a `Json.Value`.
- `ast.parse` is a parser parameter reporting the `FunctionDef` nodes.
- Regular-expression matches are parameters.
- A failure of a buffer write is a given `FlushFault` per flush.

## Model

| member | source | states |
|---|---|---|
| AsyncOpenAI.NormalizeBaseUrl | evoselfcode/clients/async_openai.py:43-46 | the normalised URL always ends in `/v1` |
| AsyncOpenAI.NormalizeExtends | evoselfcode/clients/async_openai.py:43-46 | the result begins with the URL less its trailing slashes and adds at most the three characters of `/v1`; a URL already ending in `/v1` is kept unchanged |
| AsyncOpenAI.NoSlashBeforeSuffix | evoselfcode/clients/async_openai.py:44-46 | when `/v1` is appended, no `/` stands right before it |
| AsyncOpenAI.NormalizeIdempotent | evoselfcode/clients/async_openai.py:43-46 | normalising a normalised URL changes nothing |
| AsyncOpenAI.Pow2 | evoselfcode/clients/async_openai.py:71 | `2 ** attempt` is at least 1 and exceeds `attempt` |
| AsyncOpenAI.BackoffGrows | evoselfcode/clients/async_openai.py:69-72 | the backoff is exponential: the delay after attempt `a + 1` exceeds twice the whole seconds of the delay after attempt `a`, and exceeds that delay |
| AsyncOpenAI.RetryCall | evoselfcode/clients/async_openai.py:62-74 | at most `max_retries` calls; the first success is returned; after `max_retries` failures the last error is re-raised; one delay of `2^a + 0.1(a+1)` between attempts and none after the last; with `max_retries <= 0` nothing is called and `None` results; success iff some attempt within the limit succeeds |
| CoreConfig.Merged | evoselfcode/core/config_manager.py:35-44 | the keys of a deep merge are the union of both key sets; an override wins unless both values are dicts, which are merged recursively; keys only in the base keep their value. The same function stands for `_deep_merge` in `evoselfcode/model_config.py` (lines 57-65) and for `_deep_merge_dict` in `evoselfcode/config.py` (lines 10-21), which builds fresh dicts and leaves its inputs unchanged |
| CoreConfig.DeepMerge | evoselfcode/core/config_manager.py:35-44 | the copy-then-assign loop builds exactly `Merged(base, override)` |
| CoreConfig.MergeSelf | evoselfcode/core/config_manager.py:35-44 | merging a configuration with itself gives it back |
| CoreConfig.MergeOverrideIdempotent | evoselfcode/core/config_manager.py:35-44 | applying the same override twice equals applying it once |
| CoreConfig.MergeNotAssociative | evoselfcode/core/config_manager.py:35-44 | a concrete triple shows that deep merge is not associative, so the order of layering matters |
| CoreConfig.WalkPath | evoselfcode/core/config_manager.py:46-59 | the segment walk returns the nested value, or the default as soon as a segment is missing or a non-dict is met |
| CoreConfig.SetThenGet | evoselfcode/core/config_manager.py:65-75 | after a successful `set(p, v)`, `get(p)` is `v` and every other top-level key is unchanged |
| CoreConfig.SetSucceedsOnDictPrefixes | evoselfcode/core/config_manager.py:65-75 | `set` succeeds when every existing prefix of the path is a dict |
| CoreConfig.SetFailsOnScalarPrefix | evoselfcode/core/config_manager.py:65-75 | `set` raises when some existing prefix of the path is not a dict |
| CoreConfig.ConfigManager.constructor | evoselfcode/core/config_manager.py:15-16 | the manager holds the given dict, or `{}` when none is given |
| CoreConfig.ConfigManager.Get | evoselfcode/core/config_manager.py:46-59 | `get` is the dotted-path lookup with its default |
| CoreConfig.ConfigManager.GetSection | evoselfcode/core/config_manager.py:61-63 | a section is the lookup with default `{}`, so a missing top-level section is `{}` |
| CoreConfig.ConfigManager.Set | evoselfcode/core/config_manager.py:65-75 | `set` succeeds exactly when the path can be created and then stores the value there; on failure the configuration is unchanged |
| CoreConfig.ConfigManager.Merge | evoselfcode/core/config_manager.py:81-84 | `a.merge(b)` is a fresh manager over `Merged(a, b)`, so `b` overrides `a` |
| ModelConfig.MergeModelConfig | evoselfcode/model_config.py:31-54 | the result is the model configuration deep-merged under the base configuration: every key of both, base values override, nested dicts merged |
| ModelConfig.GetClientConfig | evoselfcode/model_config.py:68-100 | the client configuration exists iff the `api` and `models` sections it reads are dicts; it always has exactly the ten client keys |
| ModelConfig.ClientConfigDefaults | evoselfcode/model_config.py:84-100 | with no `api` and no `models` section every key takes its stated default |
| ModelConfig.ConfiguredBaseUrl | evoselfcode/model_config.py:84-100 | a configured `base_url` is passed through |
| ModelConfig.RateLimitUnsetIsNone | evoselfcode/model_config.py:99 | `rate_limit_per_second` is `None` when it is not configured |
| RunConfigs.LoadConfig | evoselfcode/config.py:29-33 | no path gives `{}`; a path gives the parsed file |
| RunConfigs.FromFile | evoselfcode/config.py:41-45 | an empty or absent path gives an empty configuration; otherwise the loaded one with its path |
| RunConfigs.RunConfig.Get | evoselfcode/config.py:47-53 | the dotted-key walk is the same lookup as the configuration manager's |
| RunConfigs.GetMissingTopLevel | evoselfcode/config.py:47-53 | a missing undotted key yields the default |
| Prompts.BuildFuncnamePromptFim | evoselfcode/datagen/prompts.py:22-34 | the FIM pair is the configured prefix and suffix, each falling back to its default; it raises iff `funcname` or `fim` is not a dict |
| Prompts.BuildFuncnamePromptL2r | evoselfcode/datagen/prompts.py:37-48 | the L2R prompt is the configured one, or the default |
| Prompts.FirstToken | evoselfcode/datagen/prompts.py:77 | `split()[0]` fails iff the text is blank; otherwise it is the non-empty whitespace-free prefix of the left-stripped text that ends at whitespace or at the end |
| Prompts.Head | evoselfcode/datagen/prompts.py:74-82 | `split("(")[0]` of the stripped text (less a leading `def ` in L2R mode) is its prefix without `(` that ends at the first `(` or at the end |
| Prompts.ExtractFuncnameFromCompletion | evoselfcode/datagen/prompts.py:68-82 | the extracted name is non-empty, holds neither whitespace nor `(`, and is the first token of the head: a prefix of the left-stripped head followed by whitespace or by nothing |
| Prompts.ExtractFromDefLine | evoselfcode/datagen/prompts.py:79-82 | in L2R mode `def foo(x):` yields `foo` |
| Prompts.ExtractFailsIffBlankHead | evoselfcode/datagen/prompts.py:74-82 | extraction raises exactly when nothing but whitespace precedes the first `(`, after stripping and, in L2R mode, removing a leading `def ` |
| PromptBuilding.Setting | evoselfcode/core/prompt_builder.py:24-34 | a missing setting takes its default; a present one is rendered as the f-string renders it |
| PromptBuilding.PromptBuilder.FimSection | evoselfcode/core/prompt_builder.py:14-24 | the `funcname.fim` section exists iff each level is a dict (or absent) |
| PromptBuilding.PromptBuilder.BuildFuncnameFim | evoselfcode/core/prompt_builder.py:19-35 | the FIM prompt is `prefix_token + prefix + suffix_token + suffix + middle_token`, each the configured value rendered by `str()` or the default |
| PromptBuilding.FimBuiltFromScalars | evoselfcode/core/prompt_builder.py:19-35 | with dict sections and scalar settings the FIM prompt always exists |
| PromptBuilding.FimDefaults | evoselfcode/core/prompt_builder.py:26-35 | with nothing configured the FIM prompt is the five defaults concatenated |
| PromptBuilding.PromptBuilder.BuildFuncnameL2r | evoselfcode/core/prompt_builder.py:37-43 | the L2R prompt is the configured prompt, or the default when absent |
| PromptBuilding.NewPromptBuilder | evoselfcode/core/prompt_builder.py:14-17 | the builder holds the `prompts` section, or `{}` |
| PromptBuilding.NameLength | evoselfcode/core/prompt_builder.py:92-97 | the name is the longest prefix of alphanumerics and `_` |
| PromptBuilding.ScanName | evoselfcode/core/prompt_builder.py:92-97 | the character loop with `break` computes exactly that longest prefix |
| PromptBuilding.ExtractFuncnameAndDesc | evoselfcode/core/prompt_builder.py:58-102 | blank text gives two empty strings; without the `Function name:` marker the name is empty and the description is the stripped text; with it the description is the stripped text before its first occurrence and the name comes from the text after it; the name holds only name characters |
| PromptBuilding.NameNeedsDef | evoselfcode/core/prompt_builder.py:86-97 | a non-empty name needs the text after the marker to start with `def ` |
| PromptBuilding.NameIsLongestPrefix | evoselfcode/core/prompt_builder.py:86-97 | the name is a prefix of the stripped text after `def ` that cannot be extended |
| Filters.Keep | evoselfcode/core/filter_chain.py:71-77 | one filter pass keeps only items that pass, and never more items than it was given |
| Filters.KeepAppend | evoselfcode/core/filter_chain.py:71-77 | filtering distributes over concatenation, so order is kept |
| Filters.KeepAllProperties | evoselfcode/core/filter_chain.py:69-82 | after n filters the result is a subsequence of the input that holds exactly the items passing all n filters |
| Filters.ChainResult | evoselfcode/core/filter_chain.py:69-82 | the chain's result is an order-preserving subsequence holding exactly the items that pass every filter |
| Filters.RemovedTelescopes | evoselfcode/core/filter_chain.py:72-80 | the per-filter removal counts sum to `len(items) - len(result)` |
| Filters.FilterChain.constructor | evoselfcode/core/filter_chain.py:18-21 | a new chain has no filters and empty statistics |
| Filters.FilterChain.AddFilter | evoselfcode/core/filter_chain.py:23-27 | the filter is appended at the end and its statistic set to 0 |
| Filters.FilterChain.Apply | evoselfcode/core/filter_chain.py:57-82 | the loop returns the chained result; the statistics have exactly the filter names, and each holds the number of items its filter removed (the last filter of a repeated name wins) |
| Filters.FilterChain.GetStats | evoselfcode/core/filter_chain.py:84-86 | the statistics as they stand |
| Filters.FilterFuncnameRegex | evoselfcode/core/filter_chain.py:29-43 | a blank name is rejected; with no pattern every other name passes; otherwise the pattern decides on the stripped name |
| Filters.FilterFuncnameWeaklist | evoselfcode/core/filter_chain.py:45-50 | a name passes iff it equals no weaklist entry case-insensitively |
| Filters.FilterCodeLength | evoselfcode/core/filter_chain.py:52-55 | code passes iff its stripped length reaches the minimum |
| IoUtils.FirstTruthy | evoselfcode/io_utils.py:37-38 | an `or` chain yields the first truthy value in key order, else the default |
| IoUtils.NormalizeRecord | evoselfcode/io_utils.py:36-41 | prompt and code are the first truthy of their keys or `""`; meta holds exactly the keys outside the five reserved names with their values, and is `None` iff there are none |
| IoUtils.PromptPrecedence | evoselfcode/io_utils.py:37 | a truthy `prompt` wins; with none of the three truthy the prompt is `""` |
| IoUtils.CodeFallsBackToSolution | evoselfcode/io_utils.py:38 | without a truthy `code`, a truthy `solution` is the code |
| Json.PyStr | evoselfcode/core/prompt_builder.py:34 | `str()` of a scalar: strings unchanged, `None`, `True`/`False`, and a decimal numeral with a sign iff negative |
| Json.NatText | evoselfcode/core/prompt_builder.py:34 | `str()` of a natural number is a non-empty digit string with no leading zero |
| RatingAnalysis.CheckScore | evoselfcode/datagen/preprocess/rating_analyzer.py:89-91 | a kept score lies in [1, 5]; comparing a string, list or dict raises |
| RatingAnalysis.AddRecord | evoselfcode/datagen/preprocess/rating_analyzer.py:87-91 | one record appends to each of the five lists exactly its in-range score, or raises iff its `ratings` cannot be read |
| RatingAnalysis.ExtractScores | evoselfcode/datagen/preprocess/rating_analyzer.py:68-92 | the result has exactly the five dimension keys, and each list is that dimension's column of in-range scores in record order |
| RatingAnalysis.ColumnInRange | evoselfcode/datagen/preprocess/rating_analyzer.py:89-91 | every extracted score lies in [1, 5] |
| RatingAnalysis.ColumnLength | evoselfcode/datagen/preprocess/rating_analyzer.py:86-91 | each list has at most `len(ratings)` entries |
| RatingAnalysis.ColumnAppend | evoselfcode/datagen/preprocess/rating_analyzer.py:86-91 | scores appear in the order of the input records |
| RatingAnalysis.SkippedScore | evoselfcode/datagen/preprocess/rating_analyzer.py:89-91 | an absent, `None` or out-of-range score adds nothing |
| Engine.Store.constructor | evoselfcode/datagen/preprocess/problemgen.py:166-169 | a run starts with empty buffers, no results and empty logs, and `existing` is the loaded hash set |
| Engine.Store.Seen | evoselfcode/datagen/preprocess/problemgen.py:223 | a uid is seen iff it is in the loaded hashes, the flushed results or the pending buffer |
| Engine.Store.Buffer | evoselfcode/datagen/preprocess/problemgen.py:227-233 | a record and its uid are appended to the two buffers together; nothing else changes |
| Engine.Store.Flush | evoselfcode/datagen/preprocess/problemgen.py:239-250 | a successful flush appends the records to the output log before the hashes to the hash log, merges the hashes into `existing` and empties both buffers; a failed record write changes nothing; a failed hash write leaves the records written and the buffers full |
| Engine.Store.FinalFlush | evoselfcode/datagen/preprocess/problemgen.py:257-262 | the remainder is flushed in the same order; the run fails iff a non-empty remainder cannot be written; the buffers and the set of known hashes are left as they were, since the final write neither clears them nor updates `existing_hashes` |
| Engine.Admit | evoselfcode/datagen/preprocess/problemgen.py:219-233 | a completion is a duplicate iff its uid was seen; otherwise an admissible record is buffered; the store follows one step of the deduplication fold |
| Engine.UniquePrefix | evoselfcode/datagen/preprocess/problemgen.py:219-233 | a prefix of a duplicate-free record list is duplicate-free and avoids the loaded hashes |
| Engine.HashesHaveRecords | evoselfcode/datagen/preprocess/problemgen.py:243-244 | when the hash log is the uids of the results and the results are a subsequence of the output, every logged hash has its record in the output |
| Engine.AcceptedUnique | evoselfcode/datagen/preprocess/problemgen.py:219-233 | no uid is accepted twice, nor one from the loaded hash file |
| Engine.AcceptedCounts | evoselfcode/datagen/preprocess/problemgen.py:213-233 | every offered record is accepted, counted as a duplicate or dropped, exactly one of these |
| Engine.AcceptedInOrder | evoselfcode/datagen/preprocess/problemgen.py:227-233 | the accepted records come in offer order, and each was offered as admissible |
| Engine.AcceptedComplete | evoselfcode/datagen/preprocess/problemgen.py:219-233 | every admissible offer ends up accepted or has its uid seen before |
| Engine.AcceptedStep | evoselfcode/datagen/preprocess/problemgen.py:219-233 | one more offer is appended iff admissible and unseen; the duplicate count grows by one iff its uid was seen |
| Engine.CeilDivIsCeiling | evoselfcode/datagen/preprocess/problemgen.py:159-160 | `ceil(n/k)` batches of `k` cover `n` and one fewer does not |
| Engine.PlannedShape | evoselfcode/datagen/preprocess/problemgen.py:159-193 | the planned batch sizes are `k, k, ..., remainder`, sum to `n` and number `ceil(n/k)` |
| Engine.BatchesPrefix | evoselfcode/datagen/preprocess/skeletongen.py:260-263 | the first `b` batches are the first `b*k` items |
| Engine.BatchesPartition | evoselfcode/datagen/preprocess/skeletongen.py:233-263 | the `ceil(len/k)` batches partition the item list in order, and none is empty |
| Engine.LoadedSpec | evoselfcode/datagen/preprocess/skeletongen.py:145-171 | loading raises iff a parsed item makes the key test raise; otherwise it keeps, in file order, exactly the parsed items that pass |
| Engine.LoadItems | evoselfcode/datagen/preprocess/skeletongen.py:145-171 | the reading loop computes that loading function |
| Engine.LoadedRaises | evoselfcode/datagen/preprocess/skeletongen.py:145-171 | a raise on some prefix of the file is a raise on the whole file |
| Engine.Take | evoselfcode/datagen/preprocess/skeletongen.py:220-221 | `items[:n]` is a prefix of the stated length, including for negative `n` |
| Engine.Attempts | evoselfcode/datagen/preprocess/codegen.py:493-495 | each retry task answered by the service has `attempts` 1, the others 0; it is the closed form that `CodeGen.RetryReply` and `RatingGen.RetryRound` prove their in-place `+= 1` loops equal to |
| Engine.RaisesIffUnprompted | evoselfcode/datagen/preprocess/codegen.py:365-380 | the batch loop raises iff some item cannot be turned into a prompt |
| Engine.PromptedAll | evoselfcode/datagen/preprocess/codegen.py:365-380 | when the loop completes, the prompts sent over all batches are the items' prompts in order |
| Engine.StepAllSound | evoselfcode/datagen/preprocess/codegen.py:452-472 | when every admissible offer satisfies a record property, so does every accepted record |
| ProblemGen.TextOffersShape | evoselfcode/datagen/preprocess/problemgen.py:213-233 | a blank completion offers nothing; otherwise one admissible, well-formed record of the stripped text |
| ProblemGen.BatchSize | evoselfcode/datagen/preprocess/problemgen.py:184-186 | the batch size is `min(max_concurrent, num_samples - total_generated)` |
| ProblemGen.RequestedBounds | evoselfcode/datagen/preprocess/problemgen.py:184-193 | every requested batch size is between 1 and `max_concurrent`, and the generated total never exceeds `num_samples` |
| ProblemGen.RunWithoutFailures | evoselfcode/datagen/preprocess/problemgen.py:159-235 | with no failed batch the sizes are `K, ..., remainder`; they sum to `num_samples` over `ceil(num_samples/K)` batches |
| ProblemGen.RunAccepted | evoselfcode/datagen/preprocess/problemgen.py:211-233 | the run's fold is the deduplication specification; its records are duplicate-free, avoid the loaded hashes and are well formed |
| ProblemGen.Generate | evoselfcode/datagen/preprocess/problemgen.py:107-274 | requested sizes and the generated count follow the plan; the results are exactly the accepted completions and the duplicate count the specified one; the hash log is the results' uids, duplicate-free and new; every hash has its record; without write faults the output is exactly the results; the run raises before any request when the base prompt cannot be built or previewed, or without concurrency, and otherwise only on a final write fault |
| ProblemGen.FimPromptReady | evoselfcode/datagen/preprocess/problemgen.py:150-156 | in FIM mode the base prompt is always a string, so `generate` raises there exactly when the FIM prompt cannot be built |
| ProblemGen.L2rPromptReady | evoselfcode/datagen/preprocess/problemgen.py:150-156 | in L2R mode, with the sections in place, the preview `base_prompt[:100]` raises exactly when a configured `prompt` is neither a string nor a list; the default prompt never raises |
| SkeletonGen.LoadProblems | evoselfcode/datagen/preprocess/skeletongen.py:145-171 | `_load_problems` keeps, in file order, the parsed items containing the key, and raises on a scalar item |
| SkeletonGen.BuildPromptWithoutPlaceholder | evoselfcode/datagen/preprocess/skeletongen.py:78-88 | a template without the placeholder is sent unchanged |
| SkeletonGen.BuildPromptFills | evoselfcode/datagen/preprocess/skeletongen.py:78-88 | a template with one placeholder gets the stripped problem text in its place |
| SkeletonGen.RaisesIffMissingText | evoselfcode/datagen/preprocess/skeletongen.py:260-280 | the run raises iff some problem has no string text under the key |
| SkeletonGen.TextOffersShape | evoselfcode/datagen/preprocess/skeletongen.py:294-323 | a blank completion offers nothing; otherwise one admissible record of the stripped skeleton, its source and its problem text |
| SkeletonGen.AdmitSkeleton | evoselfcode/datagen/preprocess/skeletongen.py:298-323 | dedup is checked before validation; an invalid skeleton is still accepted with `valid = False` and counted |
| SkeletonGen.RunBatches | evoselfcode/datagen/preprocess/skeletongen.py:260-345 | the batch loop follows the deduplication fold with its duplicate and invalid counts, and prompts every problem in order |
| SkeletonGen.RunAccepted | evoselfcode/datagen/preprocess/skeletongen.py:294-323 | the accepted skeletons are duplicate-free, new and well formed |
| SkeletonGen.Generate | evoselfcode/datagen/preprocess/skeletongen.py:173-365 | loading or prompt failures raise; an empty input returns `[]` with no request; otherwise the results are the accepted skeletons with their counts; the hash log is their uids, duplicate-free and new; every hash has its record; without write faults the output is exactly the results |
| CodeGen.BuildPromptWithoutPlaceholders | evoselfcode/datagen/preprocess/codegen.py:78-91 | a template without placeholders is sent unchanged |
| CodeGen.BuildPromptFills | evoselfcode/datagen/preprocess/codegen.py:78-91 | the problem and skeleton placeholders are replaced by the stripped texts, in that order |
| CodeGen.ImportsSpec | evoselfcode/datagen/preprocess/codegen.py:93-107 | the imports are stripped import lines, and every import line of the code is among them |
| CodeGen.ExtractImports | evoselfcode/datagen/preprocess/codegen.py:93-107 | the line loop collects the stripped `import`/`from` lines in order |
| CodeGen.CheckBodyFormatSpec | evoselfcode/datagen/preprocess/codegen.py:124-136 | the format check fails exactly when the left-stripped body starts with `def ` |
| CodeGen.HasCodeSpec | evoselfcode/datagen/preprocess/codegen.py:138-157 | a body has code iff some line is neither blank nor a `#` comment |
| CodeGen.BlankHasNoCode | evoselfcode/datagen/preprocess/codegen.py:138-157 | a blank body has no code |
| CodeGen.CheckBodyHasCode | evoselfcode/datagen/preprocess/codegen.py:138-157 | the early-return loop decides exactly that |
| CodeGen.CombineSkeletonAndBody | evoselfcode/datagen/preprocess/codegen.py:159-186 | the loop builds the combined implementation |
| CodeGen.IndentLineSpec | evoselfcode/datagen/preprocess/codegen.py:170-183 | blank lines and lines already indented by four spaces are unchanged; other lines gain the four-space indent and keep their text |
| CodeGen.CombinedSpec | evoselfcode/datagen/preprocess/codegen.py:159-186 | the result is the right-stripped skeleton, a newline and the indented body, with as many lines as the body |
| CodeGen.LoadSkeletons | evoselfcode/datagen/preprocess/codegen.py:216-260 | the loading loop computes the skeleton loading function |
| CodeGen.LoadedSkeletons | evoselfcode/datagen/preprocess/codegen.py:216-260 | loading raises iff a parsed item makes the key test raise; otherwise it keeps, in file order, exactly the valid items holding both keys |
| CodeGen.ClassifySpec | evoselfcode/datagen/preprocess/codegen.py:398-440 | a completion is blank, a retry case (wrong format or no code), or a body that passes both checks |
| CodeGen.TextOffersShape | evoselfcode/datagen/preprocess/codegen.py:441-472 | a body offers the combined implementation with the skeleton's source, problem text and name; it is admissible iff syntax checking is off or it parses |
| CodeGen.RetryFoldAtMostOne | evoselfcode/datagen/preprocess/codegen.py:497-524 | a retry task adds at most one record, and retry duplicates are not counted |
| CodeGen.RetryReplyFoldBounds | evoselfcode/datagen/preprocess/codegen.py:493-524 | the retry round adds at most one record per answered task and leaves the duplicate count unchanged |
| CodeGen.BatchFoldCounts | evoselfcode/datagen/preprocess/codegen.py:398-530 | a batch's retry round only extends the first pass's records, by at most the number of retry tasks |
| CodeGen.RunFoldSound | evoselfcode/datagen/preprocess/codegen.py:365-551 | every record accepted on either path is well formed |
| CodeGen.RetryPrompts | evoselfcode/datagen/preprocess/codegen.py:474-480 | one retry request is sent iff the batch was answered and has retry tasks; it holds one prompt per task |
| CodeGen.Examine | evoselfcode/datagen/preprocess/codegen.py:398-472 | the first-pass check classifies a completion as its specification says and builds the offered record |
| CodeGen.RetryTexts | evoselfcode/datagen/preprocess/codegen.py:497-524 | the completions of one retry task follow the retry fold: the first valid unseen body is accepted, an invalid-syntax one is counted and skipped |
| CodeGen.RetryReply | evoselfcode/datagen/preprocess/codegen.py:493-524 | the retry round follows the retry fold, and each answered task ends with one attempt |
| CodeGen.RunBatches | evoselfcode/datagen/preprocess/codegen.py:365-558 | the batch loop follows the run fold with its counts, raises iff some skeleton has no prompt, and sends every prompt and retry prompt in order |
| CodeGen.RunItems | evoselfcode/datagen/preprocess/codegen.py:339-571 | the results are the fold's records with their counts; they are well formed; the hash log is their uids, duplicate-free and new; every hash has its record |
| CodeGen.Generate | evoselfcode/datagen/preprocess/codegen.py:262-571 | a loading failure raises; an empty input returns `[]` with no request; otherwise the results, counts, prompts and logs are those of the run, with duplicate-free new hashes each having its record |
| RatingGen.ImplOf | evoselfcode/datagen/preprocess/ratinggen.py:65-104 | a JSON object yields an implementation with the expected fields, anything else raises |
| RatingGen.ImplementationsSpec | evoselfcode/datagen/preprocess/ratinggen.py:65-104 | loading succeeds iff every non-blank line yields an implementation, and then holds one per such line in order |
| RatingGen.LoadImplementations | evoselfcode/datagen/preprocess/ratinggen.py:65-104 | a missing file gives `[]`; otherwise the reading loop computes the loading function |
| RatingGen.ExistingHashes | evoselfcode/datagen/preprocess/ratinggen.py:50-63 | the loaded hashes are exactly the stripped non-blank lines |
| RatingGen.UnratedSpec | evoselfcode/datagen/preprocess/ratinggen.py:289 | the filter raises iff some uid is unhashable; otherwise it keeps, in order, exactly the implementations not rated yet |
| RatingGen.FilterBeforeTruncation | evoselfcode/datagen/preprocess/ratinggen.py:289-297 | already-rated implementations are removed before the `num_samples` truncation |
| RatingGen.BuildPromptFills | evoselfcode/datagen/preprocess/ratinggen.py:106-117 | the problem and code placeholders are replaced by the texts, in that order |
| RatingGen.BuildPromptWithoutPlaceholders | evoselfcode/datagen/preprocess/ratinggen.py:106-117 | a template without placeholders is sent unchanged |
| RatingGen.DecimalReadsNatText | evoselfcode/datagen/preprocess/ratinggen.py:152-153 | `int()` reads back the numeral `str()` writes |
| RatingGen.Field | evoselfcode/datagen/preprocess/ratinggen.py:136-159 | a missing match is `None`; the summary is its stripped text; a score is the integer its digits denote |
| RatingGen.ParsedRatingSpec | evoselfcode/datagen/preprocess/ratinggen.py:119-159 | the parsed rating always has all six keys, a missing pattern mapped to `None` |
| RatingGen.ParseRating | evoselfcode/datagen/preprocess/ratinggen.py:119-159 | the dict-filling loop computes that parse |
| RatingGen.ValidateScoresSpec | evoselfcode/datagen/preprocess/ratinggen.py:161-190 | validation passes iff all five keys hold integers within `[min_score, max_score]` and the summary is truthy |
| RatingGen.CheckScores | evoselfcode/datagen/preprocess/ratinggen.py:161-190 | the early-return checks decide exactly that |
| RatingGen.JudgeSpec | evoselfcode/datagen/preprocess/ratinggen.py:364-409 | a completion is blank (a parse failure), invalid when validation is on and fails, or valid with its parsed rating |
| RatingGen.Examine | evoselfcode/datagen/preprocess/ratinggen.py:364-409 | the first-pass check judges a completion as specified |
| RatingGen.Ratings | evoselfcode/datagen/preprocess/ratinggen.py:394-405 | a record's `ratings` holds exactly the five score keys as parsed |
| RatingGen.ValidFits | evoselfcode/datagen/preprocess/ratinggen.py:381-409 | a valid completion of an unrated implementation gives a record whose scores pass validation |
| RatingGen.AnalyzerKeepsScores | evoselfcode/datagen/preprocess/rating_analyzer.py:86-91 | with validation within [1, 5], the analyser keeps every score of an accepted record |
| RatingGen.FirstListAccounts | evoselfcode/datagen/preprocess/ratinggen.py:364-409 | in the first pass each non-blank completion becomes a record or a retry task |
| RatingGen.FirstValidSpec | evoselfcode/datagen/preprocess/ratinggen.py:430-465 | the retry path takes the first valid completion, and none when none is valid |
| RatingGen.RetryListSpec | evoselfcode/datagen/preprocess/ratinggen.py:430-465 | a retry task yields at most one record; every rejected completion before it adds one to a failure counter |
| RatingGen.RetryReplyBounds | evoselfcode/datagen/preprocess/ratinggen.py:411-471 | the retry round adds at most one record per answered task and never lowers a counter |
| RatingGen.BatchFoldBounds | evoselfcode/datagen/preprocess/ratinggen.py:331-491 | a batch only extends the records and counters, and a failed batch changes nothing |
| RatingGen.RunFoldFits | evoselfcode/datagen/preprocess/ratinggen.py:331-491 | every record accepted on either path fits: the five keys, scores within bounds when validating, a uid not rated yet |
| RatingGen.RetryPrompts | evoselfcode/datagen/preprocess/ratinggen.py:411-420 | one retry request is sent iff the batch was answered and has retry tasks; it holds one prompt per task |
| RatingGen.FirstText | evoselfcode/datagen/preprocess/ratinggen.py:364-409 | one first-pass completion updates the store and counters as the first-pass step says, and yields a retry task iff invalid |
| RatingGen.ProcessList | evoselfcode/datagen/preprocess/ratinggen.py:364-409 | one implementation's completions follow the first-pass fold and add its retry tasks |
| RatingGen.ProcessReply | evoselfcode/datagen/preprocess/ratinggen.py:362-409 | a batch reply follows the first-pass fold over its answered implementations |
| RatingGen.RetryTexts | evoselfcode/datagen/preprocess/ratinggen.py:430-465 | one retry task's completions follow the retry fold with its counters |
| RatingGen.RetryRound | evoselfcode/datagen/preprocess/ratinggen.py:411-471 | the retry round follows the retry fold, and each answered task ends with one attempt |
| RatingGen.RunBatches | evoselfcode/datagen/preprocess/ratinggen.py:331-491 | the batch loop follows the run fold with its counters, raises iff some implementation has no prompt, and sends every prompt in order |
| RatingGen.RunItems | evoselfcode/datagen/preprocess/ratinggen.py:305-511 | the results are the fold's records with their counters; every result fits; the hash log is their uids and avoids the hash file; every hash has its record |
| RatingGen.Generate | evoselfcode/datagen/preprocess/ratinggen.py:220-511 | a loading failure raises; an empty input returns `[]` with no request; otherwise the results, counters and logs are those of the run over the unrated, truncated implementations |
| Converter.HintAtSpec | evoselfcode/datagen/postprocess/converter.py:121-124 | the hint search finds the first `Hint:` line, and nothing when there is none |
| Converter.BeforeHintSpec | evoselfcode/datagen/postprocess/converter.py:119-126 | the kept lines are the longest prefix without a hint line |
| Converter.RemoveHint | evoselfcode/datagen/postprocess/converter.py:115-128 | the `skip_rest` loop gives the stripped text of the lines before the first hint line; the `_remove_hint` method (lines 252-273) runs the same loop and computes the same function |
| Converter.NoHintLeft | evoselfcode/datagen/postprocess/converter.py:115-128 | no line of the result is a `Hint:` line |
| Converter.HintFreeStripped | evoselfcode/datagen/postprocess/converter.py:115-128 | a text without hint lines is only stripped |
| Converter.HintRemovedIdempotent | evoselfcode/datagen/postprocess/converter.py:115-128 | removing the hint twice is removing it once |
| Converter.DefLineFromSpec | evoselfcode/datagen/postprocess/converter.py:138-139 | the search finds the first `def` line naming the function, and nothing when there is none |
| Converter.SigEndSpec | evoselfcode/datagen/postprocess/converter.py:141-144 | a signature ends at its first line ending in `:`, or with the code |
| Converter.ExtractSignature | evoselfcode/datagen/postprocess/converter.py:131-148 | the walk over function nodes returns the specified signature, or `None` |
| Converter.FindDefLine | evoselfcode/datagen/postprocess/converter.py:138-139 | the `enumerate` loop finds that first line |
| Converter.CollectSignature | evoselfcode/datagen/postprocess/converter.py:140-145 | the `while` loop collects the lines up to the signature end, joined and stripped |
| Converter.SignatureBeginsWithDef | evoselfcode/datagen/postprocess/converter.py:131-148 | a found signature begins with `def` |
| Converter.SignatureSpec | evoselfcode/datagen/postprocess/converter.py:131-148 | the signature is that of the first function, in walk order, that has a `def` line |
| Converter.DropBlankPrefixSpec | evoselfcode/datagen/postprocess/converter.py:178-179 | exactly the blank lines in front are removed |
| Converter.DedentSpec | evoselfcode/datagen/postprocess/converter.py:184-193 | a blank line becomes empty; a line indented at least as far as the first line loses exactly that whitespace; a shorter line is kept |
| Converter.DedentCutsText | evoselfcode/datagen/postprocess/converter.py:188-189 | a long enough line that is less indented loses non-whitespace text, as the source does |
| Converter.NormalizedSpec | evoselfcode/datagen/postprocess/converter.py:185-193 | normalisation treats each line on its own |
| Converter.ExtractBody | evoselfcode/datagen/postprocess/converter.py:151-198 | the extraction returns the specified body, or `None` |
| Converter.FindBodyStart | evoselfcode/datagen/postprocess/converter.py:158-169 | the body starts after blank lines, or after the docstring |
| Converter.CollectBody | evoselfcode/datagen/postprocess/converter.py:171-176 | the body runs up to the next top-level line |
| Converter.DropLeadingBlank | evoselfcode/datagen/postprocess/converter.py:178-179 | the `pop(0)` loop removes the leading blank lines |
| Converter.Normalize | evoselfcode/datagen/postprocess/converter.py:184-193 | the normalisation loop dedents every line |
| Converter.BodyShape | evoselfcode/datagen/postprocess/converter.py:178-195 | an all-blank body yields `None`; otherwise the body is non-empty with no whitespace at either end |
| Converter.AllMeetSpec | evoselfcode/datagen/postprocess/converter.py:388-393 | the `require_all` branch passes iff every dimension meets its threshold |
| Converter.AnyMeetsSpec | evoselfcode/datagen/postprocess/converter.py:394-399 | the other branch passes iff some dimension meets its threshold |
| Converter.CheckQualitySpec | evoselfcode/datagen/postprocess/converter.py:376-399 | no thresholds always pass; with `require_all` it passes iff every dimension meets its threshold, otherwise iff one does |
| Converter.MissingScoresZero | evoselfcode/datagen/postprocess/converter.py:391 | a missing dimension scores 0 |
| Converter.QualityGate | evoselfcode/datagen/postprocess/converter.py:41-54 | the worker's gate with its `passed` flag agrees with `_check_quality` |
| Converter.ChatRecordFields | evoselfcode/datagen/postprocess/converter.py:98-111 | the record holds exactly the listed fields among `uid`, `messages` and `ratings`, with their values |
| Converter.ConvertSingleRecord | evoselfcode/datagen/postprocess/converter.py:67-112 | the worker's conversion computes the conversion function |
| Converter.ConvertSingleSpec | evoselfcode/datagen/postprocess/converter.py:67-112 | conversion raises iff the problem text is not a string; it gives a record iff signature and body exist; the user message is the hint-free problem, a blank line and the signature |
| Converter.ProcessRecord | evoselfcode/datagen/postprocess/converter.py:19-64 | the worker returns the specified status for a line |
| Converter.WorkerMatchesConvertRecord | evoselfcode/datagen/postprocess/converter.py:401-465 | the worker succeeds iff `convert_record` gives a non-empty record, and with the same record; it filters on quality iff the gate fails |
| Converter.Statuses | evoselfcode/datagen/postprocess/converter.py:501-520 | the pool yields one status per input line, in input order; `Converter.ConvertFile` is proved to write and tally exactly these statuses |
| Converter.TallySums | evoselfcode/datagen/postprocess/converter.py:507-529 | converted, quality-filtered and failed sum to the total, and converted equals the number written |
| Converter.ConvertFile | evoselfcode/datagen/postprocess/converter.py:467-549 | the file crashes iff a worker crashes; the written records are those before the crash, in input order; the statistics are the tally |
| Converter.ConvertFileCounts | evoselfcode/datagen/postprocess/converter.py:507-529 | `converted + filtered_quality + failed_parse == total`, with `total` the number of non-blank input lines |

The following methods carry out one step of a loop whose row is listed above, and their source lines fall inside that row's span: `CoreConfig.MergeKey` (`CoreConfig.DeepMerge`); `ProblemGen.ProcessTexts`, `ProcessReply`, `HandleReply` and `RunBatches` (`ProblemGen.Generate`); `SkeletonGen.ProcessTexts`, `ProcessReply`, `HandleReply`, `SendBatch` and `RunItems` (`SkeletonGen.RunBatches`, `SkeletonGen.Generate`); `CodeGen.FirstText`, `ProcessTexts`, `TextStep`, `ProcessReply`, `RetryText`, `RetryTask`, `HandleReply`, `SendBatch` and `Round` (`CodeGen.RetryTexts`, `CodeGen.RetryReply`, `CodeGen.RunBatches`); `RatingGen.Accept`, `RetryStep`, `HandleReply`, `SendBatch` and `Round` (`RatingGen.RetryTexts`, `RatingGen.RetryRound`, `RatingGen.RunBatches`).

## Left out

- `json.loads`, `yaml.safe_load`, file opening, directory creation and the JSONL writers are not modelled. Files are sequences of lines, and a parse is a parameter.
- SHA-256 (`_compute_hash`) is a parameter `h` returning a 16-character string. Collisions stay possible.
- `ast.parse` is not modelled. The converter's parser parameter reports the function nodes in walk order. Syntax validation in the skeleton and code generators is a given predicate.
- Regular expressions are parameters. This covers the patterns of `_parse_rating`, the pattern of `filter_funcname_regex` and the skeleton analysis.
- The language-model service is not modelled: `complete_batch_async`, streaming, `asyncio.Semaphore`, `gather` and `to_thread`. Each batch's reply is given, and a failed request is a `Failed` reply.
- The `multiprocessing` pool of `convert_file` is a sequential map. `imap` keeps the input order.
- `asyncio.sleep` is not performed. `RetryCall` returns the delays it would sleep.
- AsyncOpenAI.RetryCall: the delay `2 ** attempt + 0.1 * (attempt + 1)` is an exact real, where Python computes a binary float. Every failure of an attempt is caught; in the source only an `Exception` is, and a `BaseException` such as a cancellation leaves the loop at once.
- Logging, progress bars, the CLI and the services are not modelled.
- `rating_analyzer` statistics and plots are not modelled. They use numpy and matplotlib floats.
- Json.Value: has no floating-point case, so floats in ratings, thresholds and configurations are not modelled.
- RatingAnalysis.CheckScore: cannot see a float score such as 4.5, which Python keeps as a score.
- Converter.Score: compares only integer scores; Python compares floats too.
- Converter.CheckQuality: takes integer `min_ratings` thresholds; a float threshold such as 3.5 is not representable.
- Text.IsAlnum: is ASCII-only, where Python's `str.isalnum` accepts every Unicode letter and digit.
- PromptBuilding.NameLength: cuts `café` to `caf`, where Python keeps `café`, because it uses the ASCII-only test.
- Text.Lower: folds only ASCII letters, where Python's `str.lower` folds all of Unicode.
- Filters.FilterFuncnameWeaklist: compares names case-insensitively only for ASCII letters, because it uses `Text.Lower`.
- RatingGen.Decimal: reads only ASCII digits. For the other Unicode digits that `\d+` matches and `int()` accepts, the model yields `None` where Python yields an integer.
- CoreConfig.ConfigManager.constructor: the model holds a value. The source stores the caller's dict itself, so later changes by either side are shared.
- CoreConfig.ConfigManager.Merge: the model's merge is a value. The source's `_deep_merge` copies only the top level, so a merged manager shares nested dicts with its inputs.
- CoreConfig.ConfigManager.Set: updates only this manager's value. In the source, `set` on a merged manager also changes nested dicts shared with the original configuration or manager.
- RatingGen.RatingRecord: a uid that is not a string is written as `""`, in the record and in the hash file. The source keeps the original value, such as `42` or `null`, in the record. Its `_write_hashes` then raises `TypeError`.
- RatingGen.Generate: the `TypeError` of a non-string uid at the hash write is not tied to the data. Inside a batch the source swallows it and keeps the pending records, which are written to the output again at the next flush. At the final flush it propagates. The model takes flush failures only from its `FlushFault` parameters.
- Engine.Store.Flush: a `HashesWriteFails` fault appends no hash, and a `RecordsWriteFails` fault appends no record. In the source, `_write_hashes` may fail after writing a prefix of the hashes, and `_write_outputs` after writing a prefix of the pending records; the buffer is kept, so those records are written to the output file again at the next flush.
- PromptBuilding.PromptBuilder.BuildFuncnameFim: a setting that is a list or dict gives `None` here. Python renders it with `repr()`, which is not modelled.
- Json.PyStr: `repr()` of lists and dicts is not modelled.
- Regex matching beyond the empty-name check in `filter_funcname_regex` is not modelled. The pattern is a parameter `matches`.
