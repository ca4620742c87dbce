# openai-func-enums, modelled in Dafny

openai-func-enums lets a Rust program describe its command enums to the
OpenAI chat API as callable functions or tools. Derive macros turn each enum
into a JSON schema with a token count. Library functions shape a supplier's
JSON into function and tool descriptors. An embeddings crate ranks functions
by similarity to a prompt. The clap example chains several prompts, feeding
each step's result into the next.

This project models the sequential logic of those pieces and proves what
they promise.

| module | file | models |
|---|---|---|
| `Wrappers` | Wrappers.dfy | `Option` and `Result` |
| `Json` | Json.dfy | the part of `serde_json::Value` the core uses: member lookup, map insertion, key lists |
| `FuncEnums` | FuncEnums.dfy | `get_function_chat_completion_args`, `get_tool_chat_completion_args`, `get_tools_limited` |
| `Naming` | Naming.dfy | `to_snake_case`, and serde's `rename_all = "PascalCase"` rule it must pair with |
| `Attributes` | Attributes.dfy | the `description` / `tokens` attribute scan of both derive macros |
| `Derive` | Derive.dfy | what `VariantDescriptors`, `EnumDescriptor`, `generate_enum_info!` and `FunctionCallResponse` generate |
| `Embeddings` | Embeddings.dfy | `rank_functions` and `get_ranked_function_names` |
| `MultiStep` | MultiStep.dfy | the `Commands::CallMultiStep` loop of the clap example |

Parameters stand in for everything outside the model:
- the supplier closures that produce `(json, tokens)`;
- the BPE token counter (`Derive.TokenCounter`, any function from text to a natural number);
- the similarity score (`Embeddings.Similarity`, any function from two vectors to a real);
- the model call of a chain step (`MultiStep.Step`).

Most loops in the source are methods here. Each method is proved equal to a
specification function, and the source's promises are proved as lemmas
about that function:
- the descriptor loops;
- `to_snake_case`;
- the attribute scans;
- the argument loop of `get_function_json`;
- the in-place sort;
- the chain of prompts.

The source's `map`/`collect` expressions are functions.

## Model

| member | source | states |
|---|---|---|
| `Json.Lookup` | openai-func-enums/src/lib.rs:167-174 | a key has a value exactly when some member carries that key, and the value found is one of that key's members |
| `Json.Get` | openai-func-enums/src/lib.rs:167-174 | `value.get(key)` finds something exactly when the value is an object with a member under `key` |
| `Json.Keys` | openai-func-enums-macros/src/lib.rs:476 | the key list of a map has one key per member, in member order |
| `Json.Insert` | openai-func-enums-macros/src/lib.rs:458-468 | inserting an existing key keeps the key list; inserting a new key appends it |
| `Json.InsertLookup` | openai-func-enums-macros/src/lib.rs:458-468 | after an insert, the inserted key maps to the new value and every other key keeps its value |
| `Json.InsertKeys` | openai-func-enums-macros/src/lib.rs:458-468 | an insert adds exactly its key to the key set and keeps keys unique |
| `Json.KeySetIsKeys` | openai-func-enums-macros/src/lib.rs:475-476 | the keys listed by `keys()` are exactly the keys present in the map |
| `FuncEnums.DescribeEntries` | openai-func-enums/src/lib.rs:166-187 | the push loop builds one descriptor per entry, in entry order, each made from its own entry |
| `FuncEnums.ToolEntries` | openai-func-enums/src/lib.rs:220-250 | the tool loop yields exactly the filter of the entries not named `"GPT"`, each wrapped as a function tool |
| `FuncEnums.GetFunctionChatCompletionArgs` | openai-func-enums/src/lib.rs:149-190 | the supplier is a pure function value; the result is the supplier's JSON normalised and described, plus its token total, or `InvalidArgument` |
| `FuncEnums.GetToolChatCompletionArgs` | openai-func-enums/src/lib.rs:203-253 | the supplier is a pure function value; the result is the tools made from the supplier's non-`"GPT"` entries, plus its token total, or `InvalidArgument` |
| `FuncEnums.GetToolsLimited` | openai-func-enums/src/lib.rs:278-330 | the supplier is called with the allowed and required name lists unchanged; its result is shaped as in the tool variant |
| `FuncEnums.ShapingAcceptsObjectsAndArrays` | openai-func-enums/src/lib.rs:156-164 | success iff the JSON is an object or an array; an object is one entry, an array its elements; any other kind gives `InvalidArgument("Something went wrong parsing the json")` |
| `FuncEnums.TokensPassThrough` | openai-func-enums/src/lib.rs:152-189 | the token total returned is the supplier's own, in both the function and the tool variants |
| `FuncEnums.DescribeAllFaithful` | openai-func-enums/src/lib.rs:166-187 | nothing is dropped; descriptor k copies entry k's name; it has a description iff the entry's `"description"` is a JSON string, and then holds that string; its parameters are the entry's `"parameters"`, present or absent |
| `FuncEnums.ToolsCount` | openai-func-enums/src/lib.rs:230 | the number of tools is the number of entries minus those named `"GPT"`, and no tool is named `"GPT"` |
| `FuncEnums.KeptPositionsExact` | openai-func-enums/src/lib.rs:230 | a position is kept iff its entry is not named `"GPT"` |
| `FuncEnums.ToolsFollowKeptPositions` | openai-func-enums/src/lib.rs:220-250 | tool k is built from the entry at the k-th kept position, and the kept positions strictly increase, so input order is preserved |
| `FuncEnums.GptEntryDropped` | openai-func-enums/src/lib.rs:307 | an array holding a tool `"Add"` and a `"GPT"` entry gives the one tool `"Add"`, with the supplier's total |
| `Naming.ToLower` | openai-func-enums-macros/src/lib.rs:565 | lowering never yields an uppercase letter, maps uppercase to lowercase, and leaves everything else alone |
| `Naming.ToUpper` | openai-func-enums-macros/src/lib.rs:490 | raising maps a lowercase letter to the uppercase letter that lowers back to it, and leaves everything else alone |
| `Naming.ToSnakeCase` | openai-func-enums-macros/src/lib.rs:559-567 | the `char_indices` push loop computes the snake_case specification: `_` before every uppercase letter after the first character, then that character lowered |
| `Naming.HelloWorldExample` | openai-func-enums-macros/src/lib.rs:555-557 | `"HelloWorld"` becomes `"hello_world"` |
| `Naming.SnakeTailFacts` | openai-func-enums-macros/src/lib.rs:561-566 | after the first character, the output grows by one `_` per uppercase letter and holds no uppercase letter |
| `Naming.SnakeCaseShape` | openai-func-enums-macros/src/lib.rs:561-566 | output length is input length plus the uppercase letters at positions after 0; no uppercase letter appears; the first character is the input's first lowered, so no `_` is put before it |
| `Naming.SnakeCaseOfLower` | openai-func-enums-macros/src/lib.rs:561-566 | text without uppercase letters is unchanged |
| `Naming.SnakeCaseIdempotent` | openai-func-enums-macros/src/lib.rs:561-566 | converting twice is converting once |
| `Naming.PascalOfSnakeTail` | openai-func-enums-macros/src/lib.rs:420 | on ASCII letters and digits, PascalCase of the converted tail gives the tail back |
| `Naming.PascalCaseInvertsSnakeCase` | openai-func-enums-macros/src/lib.rs:420 | for an identifier that starts with an uppercase ASCII letter and holds only ASCII letters and digits, serde's PascalCase rename of its snake_case name gives it back |
| `Attributes.ItemEffect` | openai-func-enums-macros/src/lib.rs:80-97 | an item sets the description iff it is `description = "<string>"`, and sets the tokens iff it is `tokens = <integer>` with the integer in `usize` range, with the literal's value; a `tokens` integer out of that range stops the parse |
| `Attributes.ScanAttributes` | openai-func-enums-macros/src/lib.rs:73-104 | the nested loops over attributes and items compute the scan specification: defaults `""`/`0`, updates in order, and the rest of an attribute dropped at the first item the parser cannot get past |
| `Attributes.Processed` | openai-func-enums-macros/src/lib.rs:78-98 | the items an attribute gets to apply are the ones before its first stopping item, and none of them stops |
| `Attributes.ApplyItemsIsProcessed` | openai-func-enums-macros/src/lib.rs:78-98 | reading an attribute item by item equals applying its processed items in order |
| `Attributes.ScanIsSettings` | openai-func-enums-macros/src/lib.rs:76-104 | the whole scan equals applying, in order, the processed items of every attribute with the scanned name |
| `Attributes.DescriptionLastWins` | openai-func-enums-macros/src/lib.rs:82-86 | over processed items, the description is the text of the last string-literal `description` item; with none, the starting description stays |
| `Attributes.TokensLastWins` | openai-func-enums-macros/src/lib.rs:87-92 | over processed items, the tokens are the value of the last integer-literal `tokens` item; with none, the starting count stays |
| `Attributes.ScanLastWins` | openai-func-enums-macros/src/lib.rs:73-104 | the description is the text of the last string-literal `description` read, else `""`; the tokens are the last integer-literal `tokens` read, else `0` |
| `Attributes.ScanDefaults` | openai-func-enums-macros/src/lib.rs:73-77 | with no attribute of the scanned name nothing changes, so the defaults stand |
| `Attributes.LaterAttributeOverwrites` | openai-func-enums-macros/src/lib.rs:380-413 | a later attribute setting both description and an in-range token count overrides whatever earlier attributes set |
| `Attributes.ScanAppend` | openai-func-enums-macros/src/lib.rs:76-104 | scanning two attribute lists in turn equals scanning their concatenation |
| `Derive.MatchFindsFirst` | openai-func-enums-macros/src/lib.rs:207-211 | a `match` returns the arm of the first pattern the value meets |
| `Derive.VariantNameWithTokenCount` | openai-func-enums-macros/src/lib.rs:188-211 | the per-variant lookup returns the variant's own name and token count, the entry at its declaration index in the table |
| `Derive.VariantTableOrder` | openai-func-enums-macros/src/lib.rs:171-205 | the table has one entry per variant, in declaration order, and agrees with the per-variant lookup at every index |
| `Derive.EnumDescriptorDerive` | openai-func-enums-macros/src/lib.rs:67-117 | the enum's name with its token count, and the description and tokens the scan of its `arg_description` attributes gives |
| `Derive.VariantTableSums` | openai-func-enums-macros/src/lib.rs:290-297 | the names put in `"enum"` are the variants in declaration order, and the summed table tokens are the variant names' token counts added up |
| `Derive.EnumInfoOfDerive` | openai-func-enums-macros/src/lib.rs:271-309 | fed the derived `EnumDescriptor` and variant table, `generate_enum_info!` gives a one-key object from the enum's name to `{"type": "string", "enum": <variants in order>, "description": <arg_description text>}`; total = the scanned description tokens + 2 × the name's tokens + the variant names' tokens + 11 |
| `Derive.GetFunctionJson` | openai-func-enums-macros/src/lib.rs:453-484 | the function JSON with the inserted properties and `"required"` built from their keys; total = sum of the argument totals + 12 + description tokens |
| `Derive.InsertAllFacts` | openai-func-enums-macros/src/lib.rs:456-469 | the insert loop keeps keys unique and leaves exactly the arguments' keys |
| `Derive.RequiredIsPropertyKeys` | openai-func-enums-macros/src/lib.rs:474-476 | `"required"` lists exactly the keys of `"properties"`, each once |
| `Derive.RequiredArrayIsPropertyKeys` | openai-func-enums-macros/src/lib.rs:470-481 | read back with `get`, `"parameters"` holds the parameter object as `"properties"` and, as `"required"`, an array of strings that are exactly its keys, none twice |
| `Derive.InsertAllLastWins` | openai-func-enums-macros/src/lib.rs:456-469 | a property holds the schema of the last argument with its key |
| `Derive.InsertAllUntouched` | openai-func-enums-macros/src/lib.rs:456-469 | a key no argument brings keeps its earlier value |
| `Derive.SharedKeyStillCounted` | openai-func-enums-macros/src/lib.rs:456-469 | two arguments under one key leave one property, the later, yet both token counts enter the total |
| `Derive.ImplFunctionCallResponse` | openai-func-enums-macros/src/lib.rs:370-501 | one `<Variant>Response` struct per variant, in order, with its fields named by `to_snake_case` of their types, and description and tokens from the scan of the variant's `func_description` attributes |
| `Derive.FieldKeyIsPropertyKey` | openai-func-enums-macros/src/lib.rs:415-424 | the key serde reads an enum-typed field from is the enum's name, the key its schema is published under |
| `Derive.EnumArgs` | openai-func-enums-macros/src/lib.rs:426-435 | one readable one-key argument object per field type |
| `Derive.EnumArgsTotal` | openai-func-enums-macros/src/lib.rs:456-457 | the argument totals summed by `get_function_json` are the `generate_enum_info!` formula summed over the fields |
| `Embeddings.Pairs` | openai-func-embeddings/src/lib.rs:92-98 | one (name, score) pair per catalog entry |
| `Embeddings.InsertIntoSorted` | openai-func-embeddings/src/lib.rs:101-102 | one insertion step of the in-place sort: the prefix grows by the next element, placed after every element scoring at least as high; the rest of the array is untouched |
| `Embeddings.SortByScoreDesc` | openai-func-embeddings/src/lib.rs:101-102 | sorting the array in place leaves exactly the stable descending order of its old contents |
| `Embeddings.RankFunctions` | openai-func-embeddings/src/lib.rs:87-107 | the names of the stable descending ranking, one per catalog entry, a permutation of the catalog's names |
| `Embeddings.GetRankedFunctionNames` | openai-func-embeddings/src/lib.rs:137-165 | a missing archive gives `Ok([])`; an open or read failure gives that error; a malformed archive gives `"Archive processing failed: "` plus the reason; a readable one gives the ranking |
| `Embeddings.InsertLastPermutes` | openai-func-embeddings/src/lib.rs:101-102 | an insertion step adds exactly the inserted pair |
| `Embeddings.StableDescPermutes` | openai-func-embeddings/src/lib.rs:101-102 | the sort is a permutation of its input |
| `Embeddings.InsertLastDescending` | openai-func-embeddings/src/lib.rs:101-102 | inserting into a non-increasing sequence keeps it non-increasing |
| `Embeddings.StableDescDescending` | openai-func-embeddings/src/lib.rs:101-102 | scores along the sorted sequence never increase |
| `Embeddings.InsertLastStable` | openai-func-embeddings/src/lib.rs:101-102 | among pairs of one score, the inserted pair comes after those already there |
| `Embeddings.StableDescStable` | openai-func-embeddings/src/lib.rs:101-102 | pairs with equal scores keep their input order |
| `Embeddings.InsertLastNames` | openai-func-embeddings/src/lib.rs:104-106 | an insertion step adds exactly the inserted pair's name |
| `Embeddings.StableDescNames` | openai-func-embeddings/src/lib.rs:104-106 | the names of the sorted pairs are a permutation of the names of the input |
| `Embeddings.RankingIsPermutation` | openai-func-embeddings/src/lib.rs:91-107 | the ranked names number as many as the catalog entries and are a permutation of the catalog's names |
| `Embeddings.RankingOrder` | openai-func-embeddings/src/lib.rs:91-107 | the ranking is most-similar first, equal scores keep catalog order, and an empty catalog gives an empty ranking |
| `MultiStep.CallMultiStep` | examples/clap-integration/src/main.rs:159-202 | the loop over the prompts with the shared prior-result cell yields the chain specification's outcome and makes its calls, in order |
| `MultiStep.SkipPersists` | examples/clap-integration/src/main.rs:195-197 | at a later step with an empty cell no call is made, the cell stays empty, and so for every step after: the chain ends `Ok(None)` |
| `MultiStep.CallsBound` | examples/clap-integration/src/main.rs:161 | at most one model call per prompt |
| `MultiStep.CallsFollowPrompts` | examples/clap-integration/src/main.rs:161-194 | call k is made at step k; step 0 sends the first prompt verbatim to an empty cell; a later call finds a result `p` and sends `"The prior result was: " + p + ". " + prompt` |
| `MultiStep.ResultsFeedForward` | examples/clap-integration/src/main.rs:160-194 | each call finds in the cell exactly what the previous call left there |
| `MultiStep.ChainOutcome` | examples/clap-integration/src/main.rs:175-201 | a finished chain returns `Ok(None)`; the chain fails iff its last call failed, with that error, every earlier call having succeeded |
| `MultiStep.EarlyHaltMeansEmptyCell` | examples/clap-integration/src/main.rs:178-198 | a successful chain that made fewer calls than it had prompts stopped because its last call left the cell empty |
| `MultiStep.EmptyChain` | examples/clap-integration/src/main.rs:161-201 | an empty prompt list makes no call and returns `Ok(None)` |
| `MultiStep.TwoStepHalt` | examples/clap-integration/src/main.rs:178-198 | when step 0 leaves the cell empty, step 1 is never sent |

## Left out

- Logger and `logger_task`: an mpsc channel whose point is concurrency.
- Network calls are not modelled: `single_embedding`, the chat client calls, and the model call inside `CommandsGPT::run`. A chain step is an abstract function from the prompt and the prior-result cell to an error or the cell's new content. `CommandsGPT::run` is generated by a macro that is not part of this model.
- Floating point is not modelled. `cosine_similarity` is replaced by an abstract real-valued similarity, which excludes the NaN case that `partial_cmp(..).unwrap_or(Equal)` absorbs. The `f64` arithmetic commands and `RoundingMode` of the clap example are omitted.
- `calculate_token_count` is a foreign BPE tokenizer; token counts are given natural numbers.
- Token totals are unbounded naturals. The model does not capture `usize` overflow of the sums. A `tokens` literal that `base10_parse::<usize>` rejects (negative, such as `tokens = -5`, or above `2^64 - 1`) is modelled: it stops the parse, as the `?` does.
- The `syn`/`quote` mechanics are not modelled. The model states the values the expansions compute, not how the token streams are emitted. It does not model the `println!` of a failed attribute parse, or the `panic!` when a derive is applied to something other than an enum.
- Archive I/O and `rkyv` validation are not modelled. `Embeddings.ArchiveFile` names the file's outcome (missing, open failure, read failure, malformed, or decoded entries), and the ranking works on the decoded entries.
- `Embeddings.SortByScoreDesc`: `sort_by` is modelled as an in-place stable insertion sort. Any stable sort by the same comparison gives the same result, which is what the contract states. The algorithm and cost of Rust's merge sort are not modelled.
- `parse_function_call!` is a thin serde wrapper and is not modelled.
- The OpenAI builder types are plain records. Their `build()` errors are not modelled.
- An absent `"parameters"` is modelled as an absent field. Whether the builder's conversion turns it into JSON `null` is not modelled.
- The generated `name()` and `to_function_call()` of the response structs only echo the struct name; they are not modelled.
- serde_json's `Map` is modelled with insertion-ordered keys, as with the `preserve_order` feature. The default map orders keys alphabetically. Only the set-level facts hold either way: `Json.InsertLookup`, `Json.InsertKeys`, `Derive.RequiredIsPropertyKeys`, `Derive.RequiredArrayIsPropertyKeys`, `Derive.InsertAllLastWins` and `Derive.InsertAllUntouched`. The facts about order hold only with `preserve_order`: that `Json.Insert` appends a new key at the end, that `Json.Keys` lists keys in member order, and the order of the `"required"` array.
- `Naming.ToSnakeCase`: case mapping is ASCII only. Non-ASCII characters are treated as caseless, so Rust's Unicode `is_uppercase` and multi-character `to_lowercase` are not modelled.
- The source's traits and macro expansions come from different versions. Each file's behaviour is modelled as written, and the trait declarations themselves are not modelled.
- The CLI parsing, `main`, the other commands of the clap example, the get-current-weather example and the build scripts are not modelled. The build scripts only emit environment variables.
- Token-budget selection among the allowed functions is done by the supplier, which is not part of this model. `get_tools_limited` hands it the name lists unchanged.
