# StyleForecast outfit core, modelled in Dafny

StyleForecast suggests an outfit from the user's wardrobe for the current weather or a forecast.
The server filters the wardrobe for the request:

- clean items only;
- items in the chosen occasion's category only;
- minus the ids the user disliked.

It then checks that the remaining pool can make an outfit and asks a hosted language model (Groq's
OpenAI-compatible chat-completions API) for one. The model's untrusted answer is validated against
the pool. At most one correction call and one best-effort accessory call follow, and the accepted
outfit is returned with the weather fields merged in. On the client side, the outfit-history page
formats stored outfits and the profile page draws an avatar (initials and a colour). A small
in-memory wardrobe store numbers the items it adds.

The model follows the program's structure, one module per concern:

| module | file | models |
|---|---|---|
| `Endpoint` | endpoint.dfy | normalising the configured API URL into the chat-completions endpoint |
| `Prompt` | prompt.dfy | the accessory icon classifier and the prompt payload (as a record) |
| `LlmClient` | llm_client.dfy | `generate_with_llm`: candidate models, the bounded rate-limit retry, error classification, reply normalisation |
| `Feasibility` | feasibility.dfy | occasion normalisation, the exclusion set, the pool filters, the missing-parts rule and its hint |
| `Validator` | validator.dfy | `_validate_llm_output`: the closed-world check with its stable rejection codes |
| `Controller` | controller.dfy | `generate_outfit`: weather intake, gates, first / correction / accessory passes, assembly |
| `HistoryFormat` | history_format.dfy | `escapeHtml`, `stripLeadingEmoji`, `formatItemLabel`, `formatOutfitText`, the occasion display |
| `Avatar` | avatar.dfy | `getInitials`, `pickColorFromName`, the full-name fallback |
| `WardrobeStore` | wardrobe_store.dfy | the `WARDROBE` list, `get_all_items`, `add_item` |
| `Wrappers`, `Text`, `JsonValue`, `Seqs`, `Domain` | wrappers.dfy, text.dfy, json_value.dfy, seqs.dfy, domain.dfy | shared vocabulary: `Option`, Python/JavaScript string operations, parsed JSON values with Python truthiness, sequence filters, the wardrobe item and accessory records |

The outside world enters as parameters:

- **Responses.** The k-th HTTP response of a call is `replies(k)`. The n-th generation call of a request is answered by `server(n)`.
- **Weather.** The live weather lookup is a `LiveWeather` value.
- **Parsers.** JSON parsing and the "try again in N s" search are the two abstract functions of `Codecs`.
- **Rendering.** Python's `str` of floats, lists and objects is a `show` function. JavaScript's number printing is a `numberText` function.
- **Sleep.** Sleeping is recorded as a `Wait` event in the call's trace.

Loops in the source are methods with loop invariants, each proved equal to a specification function. These are:

- the candidate list, the rate-limit retry and the models loop;
- the exclusion set, the missing parts and the category tally;
- the accessory table and the entry loop;
- the colour sum.

The controller's generation and settling passes have no loop. They are straight-line methods, each proved equal to a reference function.

The in-memory wardrobe is a class whose `AddItem` updates its list in place.

## Model

| member | source | states |
|---|---|---|
| Endpoint.ResolveEndsWithEndpoint | model/get_outfit_model.py:110-121 | whatever is configured, the resolved URL ends with `/v1/chat/completions` and so with `/chat/completions` |
| Endpoint.ResolveDefault | model/get_outfit_model.py:110-121 | a missing or empty setting resolves to `https://api.groq.com/openai/v1/chat/completions` |
| Endpoint.ResolveIdempotent | model/get_outfit_model.py:100-121 | resolving an already resolved URL returns it unchanged |
| Endpoint.CompleteEndsWithEndpoint | model/get_outfit_model.py:113-121 | each of the three suffix branches (full endpoint, version prefix, bare base) yields the versioned chat-completions path |
| Endpoint.FullEndpointBranch | model/get_outfit_model.py:113-114 | a base kept as a full endpoint already ends with `/v1/chat/completions` |
| Endpoint.VersionPrefixBranch | model/get_outfit_model.py:117-118 | a base ending in `/openai/v1` or `/v1` is completed into a `/v1/chat/completions` URL |
| Endpoint.CompleteFixed | model/get_outfit_model.py:113-114 | a URL already ending with the versioned path passes the suffix tests unchanged |
| Endpoint.BaseOfDefault | model/get_outfit_model.py:110 | `None` and "" both fall back to the `https://api.groq.com` base |
| Endpoint.BaseOfTrimmed | model/get_outfit_model.py:110 | a setting without surrounding whitespace or a trailing slash is its own base |
| Prompt.AccessoryIconIsTableScan | model/get_outfit_model.py:65-83 | the if-chain equals a first-match scan of the keyword table in its priority order |
| Prompt.AccessoryIconFirstGroupWins | model/get_outfit_model.py:66-82 | the icon is that of the first keyword group (sunglass, watch, bag, hat, scarf, belt, umbrella, jewelry) found in the lower-cased "type name" text |
| Prompt.AccessoryIconDefault | model/get_outfit_model.py:83 | when no keyword group occurs the icon is the sparkles default |
| Prompt.ShortItems | model/get_outfit_model.py:143-152 | one short record per wardrobe item, in order, carrying that item's id, name, type, category and colour |
| Prompt.ShortAccessories | model/get_outfit_model.py:154-165 | the accessories listed are exactly those with an id, in order. Each entry carries that accessory's id as a string, its name and its type |
| Domain.Identified | model/get_outfit_model.py:155-160 | the accessories kept are the input filtered to those with an id, in input order, position by position with the id list |
| Prompt.Instruction | model/get_outfit_model.py:168-192 | the instruction equals the fixed block exactly when the corrective clause is missing or empty; otherwise it is the block, a blank line and the stripped clause |
| Prompt.BuildPrompt | model/get_outfit_model.py:124-202 | the payload keeps the clause and carries the weather and occasion unchanged. Its items are the shortened records of every item in order, and its accessories are the shortened accessories that have an id |
| Prompt.PromptInstruction | model/get_outfit_model.py:191-200 | every payload's instruction opens with the fixed block. A non-empty clause follows it, stripped, after a blank line; otherwise nothing follows |
| Domain.AccessoryIds | model/get_outfit_model.py:690 | the listed ids are exactly the ids of the accessories that have one, never more entries than accessories |
| LlmClient.ModelListShape | model/get_outfit_model.py:221-224 | the candidate list starts with the primary model, contains every fallback, has no repeats and has 3 or 4 entries |
| LlmClient.CandidateModels | model/get_outfit_model.py:221-224 | the append-if-absent loop builds exactly the candidate list |
| LlmClient.PostWithRetry | model/get_outfit_model.py:272-288 | the attempt loop for one model equals the reference `SendWithRetry`, and it makes a second POST if and only if the first answer is a 429 whose retry hint exists and is at most 6 s |
| LlmClient.RetryOnlyAfterShortHint | model/get_outfit_model.py:272-288 | for every answer sequence: a second POST happens if and only if the first answer is a 429 with a hint of at most 6 s. The sleep before it is `max(0, hint) + 0.3` s and the second answer decides; otherwise the first answer decides |
| LlmClient.SendShape | model/get_outfit_model.py:272-288 | one model gets one or two POSTs, all with the same body, and any sleep lies between 0.3 and 6.3 s |
| LlmClient.RunModels | model/get_outfit_model.py:260-339 | the models loop equals the reference `TryModels` from the first candidate; `NoRotationUnlessDecommissioned` states its rotation rule for every candidate |
| LlmClient.NoRotationUnlessDecommissioned | model/get_outfit_model.py:290-336 | for every candidate and answer sequence: unless the candidate's last answer is a 400 `model_decommissioned`, the call's POSTs are that candidate's POSTs alone. A 429 gives the rate-limit error with its hint, and any other status of 400 or more gives a failure. A decommissioned answer keeps the candidate's POSTs as the trace's prefix |
| LlmClient.GenerateWithLlm | model/get_outfit_model.py:205-373 | the whole call equals the reference `LlmCall`: no key means no request; otherwise the models loop on the resolved endpoint with the built prompt |
| LlmClient.CallSchedule | model/get_outfit_model.py:221-332 | a call POSTs along the candidate list in order, at most twice per model and at most eight times in all, every POST carrying the same prompt; a missing key makes no request |
| LlmClient.UnauthorizedNoRotation | model/get_outfit_model.py:311-320 | a 401 on any candidate, answering the first POST or the retry, ends the call as an invalid-key or unauthorised error read from that body. The trace holds only that candidate's one or two POSTs |
| LlmClient.ShortRateLimitRetried | model/get_outfit_model.py:271-288 | a 429 suggesting 4 s is retried once on the same model after 4.3 s, and the retry's response decides |
| LlmClient.LongRateLimitReported | model/get_outfit_model.py:298-307 | a 429 suggesting 30 s is not retried and is reported as rate limiting with the hint |
| LlmClient.DecommissionedFallsThrough | model/get_outfit_model.py:322-336 | a decommissioned primary model falls through to the next, different candidate with the same prompt, whose answer is the result |
| LlmClient.ChatBodyContent | model/get_outfit_model.py:343-346 | the content of `choices[0].message` is the content extracted |
| LlmClient.TextBodyContent | model/get_outfit_model.py:347-348 | the `text` of a choice without a message is the content extracted |
| LlmClient.ChatFinish | model/get_outfit_model.py:341-363 | a chat-shaped reply is decided by its content alone |
| LlmClient.TextFinish | model/get_outfit_model.py:341-363 | a text-shaped reply is decided by its content alone |
| LlmClient.ReplyShapes | model/get_outfit_model.py:341-363 | both reply shapes with the same non-empty string content give the same parsed result |
| LlmClient.ReplyErrors | model/get_outfit_model.py:343-373 | for any content: falsy content and an empty choice list are an unexpected structure, and truthy non-string content ends in the caught exception |
| LlmClient.PlainReplyUntouched | model/get_outfit_model.py:355-360 | an unfenced reply without surrounding whitespace reaches the parser unchanged |
| LlmClient.FencedReplyUnwrapped | model/get_outfit_model.py:356-360 | a reply wrapped in a three-backtick fence with a `json` tag reaches the parser as its body alone |
| LlmClient.FirstOccurrence | model/get_outfit_model.py:366 | `find` gives the position of the first occurrence |
| LlmClient.LastOccurrence | model/get_outfit_model.py:367 | `rfind` gives the position of the last occurrence |
| LlmClient.EmbeddedObjectRecovered | model/get_outfit_model.py:362-369 | when the text does not parse, the span from its first `{` to its last `}` is parsed and is the reply |
| LlmClient.UnrecoverableReply | model/get_outfit_model.py:362-373 | text that does not parse and has no `{` before any `}` (no brace, or `}` only ahead of every `{`) becomes an error result carrying the direct parse's failure; nothing is raised |
| JsonValue.NatDigitsValue | model/get_outfit_model.py:448 | the decimal digits printed for a natural number read back as that number |
| JsonValue.ParseDecimalRoundTrip | model/get_outfit_model.py:448 | Python's `int()` reads back every integer that `str` prints, negative ones included |
| JsonValue.ParseDecimalAccepts | model/get_outfit_model.py:448 | `int()` accepts exactly an optional sign followed by digits with single underscores between them. Only a leading minus gives a negative value, the negation of the rest |
| JsonValue.ParseDecimalExamples | model/get_outfit_model.py:448 | Python's `int()` on text: signs and single underscores are accepted, doubled underscores, letters and the empty text are refused |
| Feasibility.NormaliseOccasion | model/get_outfit_model.py:440-443 | the normalised occasion has no surrounding whitespace and is never "business" in any case |
| Feasibility.NormaliseOccasionIdempotent | model/get_outfit_model.py:440-443 | normalising twice is normalising once |
| Feasibility.BusinessIsFormal | model/get_outfit_model.py:442-443 | "business" in any case and with any surrounding whitespace becomes "Formal" |
| Feasibility.ExcludeSet | model/get_outfit_model.py:444-450 | the set holds exactly the ids `int()` accepts among the list's elements; anything that is not a list excludes nothing |
| Feasibility.OccasionItemsMembers | model/get_outfit_model.py:453-465 | the occasion items are exactly the clean items of the occasion's category, or all clean items when no occasion is chosen |
| Feasibility.PoolMembers | model/get_outfit_model.py:453-469 | the pool holds exactly the clean, on-occasion items whose ids are not excluded |
| Feasibility.CountKindZero | model/get_outfit_model.py:475-476 | a type count is zero exactly when no pool item has that type |
| Feasibility.MissingParts | model/get_outfit_model.py:487-496 | the nested tests build exactly the reference missing list |
| Feasibility.MissingListMeaning | model/get_outfit_model.py:487-496 | shoes are missing iff there are none; top (bottom) iff there is no onepiece and no top (bottom); outerwear iff it is required and there is none |
| Feasibility.MissingListOrdered | model/get_outfit_model.py:487-496 | the missing parts appear in the order shoes, top, bottom, outerwear |
| Feasibility.CategoryTally | model/get_outfit_model.py:512-516 | the tally loop builds the insertion-ordered category counts |
| Feasibility.TallyCounts | model/get_outfit_model.py:512-519 | the tally has distinct keys, each another non-empty category, with a count equal to its number of clean items |
| Feasibility.HintIsTally | model/get_outfit_model.py:498-520 | in a refusal, the other-category hint is exactly the tally of the clean items when an occasion is chosen, and empty otherwise |
| Feasibility.FeasibleWhenComplete | model/get_outfit_model.py:478-498 | a pool with shoes, a onepiece and outerwear is always feasible, whatever the weather |
| Validator.LookupItem | model/get_outfit_model.py:577 | the lookup finds a pool item with that id exactly when one exists |
| Validator.LookupAccessory | model/get_outfit_model.py:580-587 | the lookup finds an accessory with that string id exactly when one exists |
| Validator.AccessoryTable | model/get_outfit_model.py:580-587 | the loop's dictionary maps exactly the accessory ids, each to the last accessory with that id |
| Validator.CheckAccessory | model/get_outfit_model.py:613-628 | an accessory entry passes if and only if its id is not null and its string form is non-empty and names a known accessory. The entry then carries that string id, role accessory, category Accessory, the entry's reason, the accessory's name (or "Accessory"), an empty colour and the accessory's icon; otherwise it is `unknown_accessory` |
| Validator.CheckItem | model/get_outfit_model.py:630-660 | one iff per code, in the source's order. `unknown_item` iff `int(id)` fails or names no pool item; `used_excluded` iff it names one that is excluded; `dirty_item` iff it names a non-excluded item that is not clean; otherwise the entry passes. It carries `int(id)`, the given role when non-empty (else the item's lower-cased type, else "item"), the item's name, category, colour and icon, and the reason; it counts as shoes iff the item's type is shoes |
| Validator.CheckEntry | model/get_outfit_model.py:605-660 | `invalid_entry` iff the entry is not an object; the raised error iff its role or type is not a string. Otherwise the accessory role goes to the accessory check and every other role to the item check |
| Validator.AccessoryStep | model/get_outfit_model.py:613-628 | reading the accessory from the built table agrees with the reference check |
| Validator.EntryStep | model/get_outfit_model.py:605-660 | the loop body agrees with the reference per-entry check |
| Validator.ValidateOutput | model/get_outfit_model.py:560-673 | the validator as written, with its table and entry loop, equals the reference `Validate` |
| Validator.PrecheckOrder | model/get_outfit_model.py:570-599 | `llm_error` iff an error came back; `invalid_schema` iff no error and no outfit list; then `no_shoes` iff the pool has no shoes; then `no_clean_shoes` iff none of them is clean |
| Validator.RemediableIsReply | model/get_outfit_model.py:570-574 | any rejection other than `llm_error` concerns a reply without an "error" key |
| Validator.EntryOrder | model/get_outfit_model.py:605-667 | after the prechecks, the first failing entry decides; `empty_outfit` iff there are no entries; `missing_shoes` iff all entries pass and none references shoes |
| Validator.AcceptedClosedWorld | model/get_outfit_model.py:601-673 | an accepted outfit keeps every entry in order; each wardrobe id names a clean, non-excluded pool item; each accessory id names an accessory; some entry's item is shoes whatever its role; the accessory flag is set iff an accessory entry is present |
| Validator.AllPassAccepted | model/get_outfit_model.py:601-673 | once the prechecks pass, entries that all pass, one of which references shoes, are accepted whole; there is no cap on shoes or accessories |
| Validator.PipelineRejections | model/get_outfit_model.py:636-646 | against the pipeline's pool, `used_excluded`, `dirty_item` and `no_clean_shoes` are never reported |
| Validator.PoolEntryVerdict | model/get_outfit_model.py:636-646 | no entry checked against the pipeline's pool stops as excluded or dirty |
| Validator.ExcludedIsUnknown | model/get_outfit_model.py:636-637 | an excluded wardrobe id in a candidate is rejected as `unknown_item`, because the pool no longer holds it |
| Controller.Observe | model/get_outfit_model.py:385-410 | an override naming a weather or condition gives its conditions, the condition being `condition or weather`, with its temperature, humidity and wind. Otherwise the live lookup decides: its error ends the request, and its conditions are used |
| Controller.WeatherTexts | model/get_outfit_model.py:541 | the prompt's weather text equals the error answers' text when there is a temperature, and otherwise appends ", None°C" |
| Controller.SortedIds | model/get_outfit_model.py:547 | the rendered ids are strictly increasing and are exactly the convertible ids |
| Controller.SortedExclusions | model/get_outfit_model.py:547 | the sorted exclusion list is strictly increasing and has exactly the members of the exclusion set |
| Controller.CleanShoeIds | model/get_outfit_model.py:685-689 | every id offered in the correction names a clean shoes item of the pool, and every clean shoes item of the pool has its id listed |
| Controller.CleanShoeIdsOrdered | model/get_outfit_model.py:685-689 | two clean shoes items are listed in the order the pool holds them |
| Controller.Prefer | model/get_outfit_model.py:749-751 | the accessory pass takes the new verdict exactly when it is accepted and has an accessory, and otherwise keeps the accepted one |
| Controller.ContextOf | model/get_outfit_model.py:440-469 | the passes see the normalised occasion, the exclusion set, the filtered pool, the accessories and the prompt weather text |
| Controller.CallModel | model/get_outfit_model.py:550-557 | one recorded generation call equals the reference invocation |
| Controller.JudgeResult | model/get_outfit_model.py:675 | the verdict is the validator's on that result |
| Controller.GenerationStage | model/get_outfit_model.py:675-707 | the first call, then the correction call for a remediable verdict, equal the reference passes |
| Controller.SettleStage | model/get_outfit_model.py:709-767 | the failure answers, the accessory pass and the assembly equal the reference settlement |
| Controller.GenerateOutfit | model/get_outfit_model.py:376-776 | the whole request handler equals the reference `Generate` |
| Controller.Stages | model/get_outfit_model.py:376-538 | a weather failure or an early gate answers without a generation call; otherwise the generation passes decide |
| Controller.InfeasibleMakesNoCall | model/get_outfit_model.py:498-533 | a request whose pool misses a part is answered with the missing parts before any generation call |
| Controller.CallBudget | model/get_outfit_model.py:550-748 | at most three generation calls: the first, then possibly the correction, then possibly the accessory call |
| Controller.CorrectionIffRemediable | model/get_outfit_model.py:679-707 | the correction call is made exactly when the first verdict is `missing_shoes`, `unknown_accessory`, `invalid_schema` or `used_excluded` |
| Controller.SettleCalls | model/get_outfit_model.py:724-753 | settling keeps the calls made so far and adds at most the accessory call |
| Controller.AccessoryPassWhenWanted | model/get_outfit_model.py:724-751 | with an accepted settled verdict, the accessory call is made, as the last call, exactly when the pass applies. The answer is then the preferred verdict, so an accepted reply with an accessory is delivered; otherwise the settled outfit is |
| Controller.UpgradeKeepsSuccess | model/get_outfit_model.py:724-767 | when the settled verdict accepts, an outfit is delivered: the settled one, or the accessory call's accepted outfit that has an accessory |
| Controller.OutfitNeedsAcceptance | model/get_outfit_model.py:709-722 | an outfit is delivered only when the settled verdict accepts |
| Controller.OutfitFromACall | model/get_outfit_model.py:755-767 | a delivered outfit is some call's accepted outfit, with the weather fields, `warning` None and source "llm" |
| Controller.DeliveredClosedWorld | model/get_outfit_model.py:675-767 | every delivered wardrobe id names a clean, non-excluded, on-occasion item of the wardrobe; every accessory id names an accessory; some entry's item is shoes |
| Controller.SecondCallErrorUnreported | model/get_outfit_model.py:709-722 | after a correction, a failed second call is reported as a validation failure without its code or retry hint |
| Controller.RateLimitSurfaced | model/get_outfit_model.py:709-718 | a rate-limited first call is answered after that single call, with its code, retry hint and source "llm" |
| Controller.UnknownItemNotRetried | model/get_outfit_model.py:679-722 | an unknown or excluded wardrobe id in the first reply fails after one call, without a correction |
| HistoryFormat.EscapeHtml | static/outfit_history.js:43-50 | null or undefined gives ""; the output holds no `<`, `>`, `"` or `'`; decoding the entities gives back the text of the value |
| HistoryFormat.EscapeIsPerChar | static/outfit_history.js:44-49 | the chain of replacements equals escaping each character on its own |
| HistoryFormat.EscapeRoundTrip | static/outfit_history.js:44-49 | decoding the five entities recovers the input, because `&` is replaced first |
| HistoryFormat.EscapeSafe | static/outfit_history.js:44-49 | the escaped text holds no `<`, `>`, `"` or `'` |
| HistoryFormat.DropLeadingSymbols | static/outfit_history.js:55 | the pattern removes the longest prefix of non-alphanumerics, leaving "" or a text starting with an ASCII letter or digit |
| HistoryFormat.StripLeadingEmoji | static/outfit_history.js:53-56 | the result is empty or starts with an ASCII letter or digit |
| HistoryFormat.StripLeadingEmojiKeeps | static/outfit_history.js:53-56 | a text whose trimmed form starts with a letter or digit is only trimmed |
| HistoryFormat.StripLeadingEmojiIdempotent | static/outfit_history.js:53-56 | cleaning a cleaned label changes nothing |
| HistoryFormat.ColouredName | static/outfit_history.js:70-78 | "" iff the name is ""; the name alone when there is no colour or it already starts with colour + space (ignoring case); otherwise colour + space + name |
| HistoryFormat.ColouredNameOnce | static/outfit_history.js:73-78 | labelling a label again with the same colour never doubles the colour |
| HistoryFormat.ItemName | static/outfit_history.js:65-66 | the cleaned name, else role, is empty or starts with an ASCII letter or digit, and is empty when neither is truthy |
| HistoryFormat.FormatItemLabel | static/outfit_history.js:59-79 | a string item is only cleaned. An object with no name and no role gives "". With no colour it gives the name alone; otherwise the name, prefixed with colour + space unless it already starts that way |
| HistoryFormat.RankOrder | static/outfit_history.js:40 | tops rank before one-pieces, bottoms, outerwear and shoes; every other role ranks 99 |
| HistoryFormat.SortByKey | static/outfit_history.js:85-92 | the sorted copy is a permutation of the outfit, ordered by non-decreasing rank |
| HistoryFormat.StableSort | static/outfit_history.js:85-92 | items of equal rank keep their original order |
| HistoryFormat.FormatOutfitText | static/outfit_history.js:82-98 | an array outfit gives a string; any other truthy outfit is returned as it is, and a falsy one as "" |
| HistoryFormat.OutfitTextRanked | static/outfit_history.js:82-98 | the text joins with ", " the non-empty labels, a permutation of the labelled items in non-decreasing rank and, within a rank, in input order |
| HistoryFormat.OccasionText | static/outfit_history.js:103 | a missing occasion displays as "—"; a non-empty string occasion displays as itself |
| HistoryFormat.OccasionIcon | static/outfit_history.js:104 | a known occasion gets its emoji; exactly the unknown ones get ✨ |
| HistoryFormat.OccasionDefaults | static/outfit_history.js:103-104 | an entry with no occasion shows "—" and ✨ |
| Avatar.SplitWords | static/profile.js:37 | splitting always yields at least one piece |
| Avatar.SplitFirst | static/profile.js:37 | the first piece is the longest whitespace-free prefix, and it is the whole text exactly when there is no whitespace |
| Avatar.GetInitials | static/profile.js:32-42 | the initials have one or two characters and are "?" or hold no lower-case ASCII letter |
| Avatar.BlankInitials | static/profile.js:33-35 | a missing, empty or whitespace-only name gives "?" |
| Avatar.OneWordInitial | static/profile.js:37-40 | a single word gives its first character upper-cased |
| Avatar.WordsInitials | static/profile.js:37-41 | several words give the upper-cased first characters of the first and the last word |
| Avatar.ColorFor | static/profile.js:45-53 | the colour is a palette entry: the first for no name, otherwise the entry at the UTF-16 code-unit sum modulo 5 |
| Avatar.PickColorFromName | static/profile.js:45-53 | the summing loop gives exactly that palette entry |
| Avatar.ColorIgnoresOrder | static/profile.js:48-52 | only the character codes count: swapping two parts of a name keeps its colour |
| Avatar.FullName | static/profile.js:70 | the full name has no whitespace at either end |
| Avatar.AvatarName | static/profile.js:76-77 | the avatar is drawn from the full name, or from "User" when it is empty |
| Avatar.BlankNameFallsBack | static/profile.js:68-77 | blank first and last names give the initials "U" and the first palette colour |
| Avatar.TwoWordInitials | static/profile.js:68-76 | one-word first and last names give the full name "first last" and both initials upper-cased |
| WardrobeStore.Added | model/wardrobe_model.py:27-48 | a falsy name leaves the list unchanged; otherwise one record is appended after the unchanged old ones, numbered length + 1, with "Other" and "Clean" for a falsy category and status |
| WardrobeStore.SeedSequential | model/wardrobe_model.py:2-15 | the seed list is numbered 1, 2 in order |
| WardrobeStore.AddedSequential | model/wardrobe_model.py:40-47 | an addition keeps the ids numbered 1 to n in order, so no two items share an id |
| WardrobeStore.AdditionsSequential | model/wardrobe_model.py:2-48 | from the seed, any series of additions leaves the ids numbered 1 to n |
| WardrobeStore.Wardrobe.constructor | model/wardrobe_model.py:2-15 | the list starts as the two seed records |
| WardrobeStore.Wardrobe.GetAllItems | model/wardrobe_model.py:18-24 | the whole list as it stands, every added item included |
| WardrobeStore.Wardrobe.AddItem | model/wardrobe_model.py:27-48 | the list becomes the old list after the addition, in place |

## Left out

- Live I/O is not modelled. This covers `get_weather`, `requests.post`, `time.sleep` and `os.getenv`. Responses, the weather lookup and the configuration are parameters, and the sleep is a recorded `Wait` event.
- Floating point is not modelled. The retry hint is a `real` that is already parsed: the `float()` of the `Retry-After` header and of the message text is outside the model. The override's `round(float(temp))` is an already-rounded `Option<int>`. The temperature parameters are carried along but never computed with.
- JSON text parsing and the "try again in N s" regular expression are abstract functions. The prompt payload is a record that keeps the corrective clause; its JSON serialisation is not modelled.
- Python's `str` of floats, lists and objects, and JavaScript's number printing, are parameters.
- The wording of the error messages is modelled by cause, not as text. The same goes for `repr` quoting of accessory ids in the corrective clauses.
- Case mapping is ASCII only, and so are the alphanumeric test of `stripLeadingEmoji` and the initials' upper-casing. `JsonValue.ParseDecimal` accepts ASCII digits only, while Python's `int()` also accepts other Unicode decimal digits; the surrounding whitespace it ignores is modelled.
- Avatar.GetInitials: the bound of one or two characters and the absence of lower-case letters hold for the model's ASCII upper-casing. JavaScript's `toUpperCase` can lengthen some non-ASCII letters. A first character outside the Basic Multilingual Plane (where `[0]` reads a lone UTF-16 surrogate) is not modelled.
- Validator.CheckAccessory: an accessory id that is a float, a list or an object is rejected as an unknown accessory. Python instead looks up `str(item_id)`, which could match a stored id (model/get_outfit_model.py:615-616). Strings, integers, booleans and null are modelled as Python converts them.
- Missing text fields of a wardrobe item (name, category, color, type, icon) become the empty text in `Domain.Item`, and the id is an optional integer. So the model does not carry these Python behaviours:
  - the null name, color and icon of enriched entries (model/get_outfit_model.py:652-658);
  - the nulls in the prompt's short items (model/get_outfit_model.py:143-152);
  - a null category tallied under the truthy key `"None"` (model/get_outfit_model.py:513-516);
  - the text `"None"` that `_accessory_icon` renders for a null type or name (model/get_outfit_model.py:66);
  - a text id such as `"3"`, which Python's exclusion filter lets through (model/get_outfit_model.py:468-469).
- HistoryFormat.OccasionText: a null history entry is excluded by its precondition. On such an entry `entry.occasion` throws a TypeError (static/outfit_history.js:103), and the model does not represent that exception.
- Occasion and role keys that coincide with `Object.prototype` property names are not modelled.
- The JavaScript comparator is modelled as a stable sort by rank. It sorts a copy, so the stored outfit is untouched.
- WardrobeStore.Wardrobe.GetAllItems: returns the list as a value, not a reference the caller could mutate, so aliasing of the returned list is not modelled.
- WardrobeStore.Wardrobe.AddItem: `name`, `category` and `status` are optional strings. Other truthy or falsy Python values are not modelled.
- `generate_outfit` calls `get_all_items(user_email)` and `get_all_accessories(user_email)`, but the wardrobe function takes no argument. The wardrobe and accessories are therefore caller-supplied inputs; the swallowed exception that would always empty the wardrobe is not modelled.
- The accessories collection, the database-backed models, authentication, Flask routes and the DOM, fetch and rendering code of the client scripts are not part of this model.
- The insertion order of the other-category hint dictionary is modelled as a list of pairs. Its key order follows the source's loop.
