# ZenAPI core, modelled in Dafny

ZenAPI is an API gateway on Cloudflare Workers. It stores upstream
"channels" (a base URL, one or more API keys, the models a channel serves),
forwards OpenAI-style `/v1` requests to them with weighted failover, and
converts between the OpenAI and Anthropic wire formats, both for whole
messages and for server-sent event streams. Users of a "shared" site can
contribute their own channels, which pass a hostname blocklist and may wait
for approval. Model aliases can be set globally (per model) or per channel.
A withdrawal route moves balance between a user and an external credit
system. The project also covers two clients:
- the admin UI's playground, which reads a streamed reply;
- the "LINUX DO Credit" tipping userscript.

Each source file of the core is one Dafny module, in a file named after it:

| Dafny file | source |
|---|---|
| `app.dfy` | `apps/worker/src/index.ts` (admin-auth bypass, CORS origin list) |
| `format_converter.dfy` | request and response conversion in `format-converter.ts` |
| `sse_lines.dfy` | the line buffering the stream converters share |
| `sse_anthropic_to_openai.dfy`, `sse_openai_to_anthropic.dfy` | the two stream transcoders of `format-converter.ts` |
| `proxy.dfy` | `routes/proxy.ts` |
| `playground.dfy` (modules `PlaygroundRoute`, `PlaygroundSweep`) | `routes/playground.ts` |
| `keys.dfy` | `utils/keys.ts` and the key shuffle |
| `url.dfy` | `utils/url.ts` |
| `model_aliases.dfy` | `services/model-aliases.ts` |
| `md5.dfy`, `md5_vectors.dfy`, `token.dfy` | `utils/crypto.ts` |
| `withdrawal.dfy` | `routes/withdrawal.ts` |
| `channel_common.dfy`, `grouping.dfy` | what the channel routes share |
| `channels.dfy` | `routes/channels.ts` |
| `user_channels.dfy` | `routes/user-channels.ts` |
| `models.dfy` | `routes/models.ts` |
| `public_models.dfy` | `routes/public.ts` |
| `playground_view.dfy` | `apps/ui/src/features/PlaygroundView.tsx` |
| `ldc_reward.dfy` | `ldc-reward.user.js` |
| `wrappers.dfy`, `text.dfy` | `Option`, and the JavaScript string operations the source uses |

The modelling follows the source's own form:
- Pure code becomes datatypes and functions.
- Route handlers that read and write the database become a pure
  specification function from the old tables and the request to the new
  tables and the reply. A class holds the tables as fields, and its
  methods run the handler's loops in place. Each method's `ensures` ties
  it to the specification function.
- Loops become `while` loops with invariants.
- The key shuffle and the MD5 digest work in place on arrays.

Clocks, random numbers, `fetch` and `JSON.parse` become parameters or
oracles. Database tables are sequences of rows in table order.

## Model

| member | source | states |
|---|---|---|
| App.ApiGuard | apps/worker/src/index.ts:41-51 | `/api/*` requests pass straight through exactly for `/api/auth/login` and for paths starting with `/api/channel`, `/api/user` or `/api/group`; all others go through `adminAuth` |
| App.ChannelCrudBypassesAdminAuth | apps/worker/src/index.ts:41-56 | the prefix test also matches `/api/channels…`, so the admin channel CRUD mounted there skips admin auth |
| App.AdminRoutesNeedAdminAuth | apps/worker/src/index.ts:41-61 | every path under `/api/tokens`, `/api/usage`, `/api/models`, `/api/dashboard` and `/api/settings` goes through `adminAuth` |
| App.ApiCorsOrigin | apps/worker/src/index.ts:24-27 | an unset or `*` `CORS_ORIGIN` allows any origin; otherwise the allowed origins are the comma-separated pieces, one per piece and in order, each the trimmed piece |
| App.ApiCorsOriginReadsList | apps/worker/src/index.ts:24-27 | a setting that lists origins separated by commas, with spaces around them, allows exactly those origins in that order |
| Text.TrimIsCore | apps/worker/src/index.ts:26 | `trim` removes exactly the leading and trailing white space around a core that starts and ends with a non-space |
| Text.TrimDropsSpaces | apps/worker/src/index.ts:26 | `trim` removes white space at the two ends and nothing else: the string is its trim with white space before and after |
| ChannelCommon.ModelIds | apps/worker/src/routes/channels.ts:174-176 | the ids read from a `models` array are exactly the non-empty ids its elements name |
| ChannelCommon.BatchesPartition | apps/worker/src/routes/channels.ts:99-103 | the id list is cut into ⌈n/80⌉ non-empty batches of at most 80 ids that together are the list, so every id is queried exactly once |
| ChannelCommon.BatchAt | apps/worker/src/routes/user-channels.ts:45-47 | the k-th batch is the slice the loop takes at `i = 80k` |
| Channels.ResolveChannelIdRule | apps/worker/src/routes/channels.ts:57-64 | the first present field among `id`, `channel_id` and `channelId` decides, even when it is empty or falsy; a resolved id is that field's trimmed, non-empty text |
| Channels.ResolveChannelId | apps/worker/src/routes/channels.ts:57-64 | a resolved id is non-empty and has no surrounding white space |
| Channels.CollectModelIds | apps/worker/src/routes/channels.ts:75-94 | the loop collects the distinct model ids of all rows in order of first appearance; a row with no column or with malformed JSON adds nothing |
| Channels.CollectedIds | apps/worker/src/routes/channels.ts:75-94 | a model id is collected exactly when it is non-empty and some row's array (or the object's `data`) names it, and no id is collected twice |
| Channels.AliasEntries | apps/worker/src/routes/channels.ts:114-117 | each alias row gives one entry, with `is_primary` true exactly when the column is 1 |
| Channels.GroupRows | apps/worker/src/routes/channels.ts:110-121 | after the row loop, each model's entry is the old entry extended with that model's rows, in row order |
| Channels.ListModelAliases | apps/worker/src/routes/channels.ts:96-123 | over all batches, each listed model with alias rows gets its aliases in row order, with `alias_only` set iff one of its rows is flagged; other models get no entry |
| Channels.ListChannels | apps/worker/src/routes/channels.ts:69-126 | `GET /` returns every channel row, and for every advertised model the grouped aliases of its rows |
| Channels.ListedEntryMeaning | apps/worker/src/routes/channels.ts:110-121 | a listed entry exists iff the model has rows; it holds their aliases in order and is alias-only iff some row is |
| Channels.LastSaved | apps/worker/src/routes/channels.ts:173-186 | a save happens for a model exactly when the channel's `models` lists it and some `model_aliases` entry names it |
| Channels.SaveEntriesEffect | apps/worker/src/routes/channels.ts:173-186 | after the saves, a listed model's rows are those of the last entry naming it; the rows of every other model are untouched |
| Channels.HoldsListsBack | apps/worker/src/routes/channels.ts:110-121 | rows saved from an alias list are listed back as that list with its flag; an empty list leaves no entry |
| Channels.StoredBaseUrl | apps/worker/src/routes/channels.ts:153-156 | the stored URL is a prefix of the trimmed input; for formats other than anthropic it is the trimmed input without trailing slashes |
| Channels.StoredBaseUrlRule | apps/worker/src/routes/channels.ts:153-156 | what is removed from the trimmed input is a run of slashes, preceded for the anthropic format by at most one `/v1`; when only slashes go, all of them go; for the anthropic format a `/v1` left at the end once the slashes are gone is removed too |
| Channels.TrimmedHeaders | apps/worker/src/routes/channels.ts:148 | custom headers are stored trimmed, and as null when absent or blank |
| Channels.FirstWithId | apps/worker/src/routes/channels.ts:201-204 | the lookup finds a row with the id, and fails exactly when no row has it |
| Channels.ParsedModels | apps/worker/src/routes/channels.ts:206 | the stored model list with the `[]` fallback is never absent or malformed |
| Channels.ReplaceWithId | apps/worker/src/routes/channels.ts:219-234 | the update rewrites exactly the rows with the id, and keeps all others in place |
| Channels.WithoutId | apps/worker/src/routes/channels.ts:258-262 | the delete keeps exactly the rows whose id differs |
| Channels.ProbeUsesFirstKey | apps/worker/src/routes/channels.ts:274-279 | for a newline-separated list of clean keys, the connectivity test uses the first key |
| Channels.TestOverwriteRule | apps/worker/src/routes/channels.ts:267-320 | an unknown id answers 404; an unreachable channel records a failed test and answers 502; the model list is overwritten exactly when the probe returned models and a payload and the channel had none, and then the old column is kept and `defaultShared` is set exactly in shared mode |
| Channels.TakenIdIsConflict | apps/worker/src/routes/channels.ts:137-143 | a requested id that is already taken answers 409 `channel_id_exists` and changes nothing |
| Channels.CreatedChannel | apps/worker/src/routes/channels.ts:131-170 | a created channel is appended with the id the reply names: the requested id when one resolved, else a `ch_` token of 35 characters; a requested id was free before |
| Channels.SavedAliasesAreListed | apps/worker/src/routes/channels.ts:110-186 | after a create, listing reports for each listed model exactly the last saved non-empty alias list and its flag; models the channel does not list are unchanged |
| Channels.AdvertisedByNewRow | apps/worker/src/routes/channels.ts:75-94 | a model in the new row's array is among the ids the listing collects |
| Channels.PatchChecksBodyFirst | apps/worker/src/routes/channels.ts:195-204 | a PATCH without a body answers 400 `missing_body`, even for an unknown id |
| Channels.PatchRule | apps/worker/src/routes/channels.ts:194-234 | a PATCH of an unknown id answers 404 and changes nothing; a known id rewrites exactly its rows, keeping the fields the body omits and the stored model list when the body has none |
| Channels.DeleteRule | apps/worker/src/routes/channels.ts:258-262 | DELETE removes exactly the rows with the id, leaves the alias table alone and answers ok, whether or not the id existed |
| Channels.ChannelStore.SaveAliasEntries | apps/worker/src/routes/channels.ts:177-185 | the loop over `Object.entries(model_aliases)` leaves the alias table the specification describes |
| Channels.ChannelStore.Create | apps/worker/src/routes/channels.ts:131-189 | `POST /` run in place leaves the tables and reply of the specification |
| Channels.ChannelStore.Update | apps/worker/src/routes/channels.ts:194-253 | `PATCH /:id` run in place leaves the tables and reply of the specification |
| Channels.ChannelStore.Remove | apps/worker/src/routes/channels.ts:258-262 | `DELETE /:id` run in place leaves the tables and reply of the specification |
| UserChannels.FirstBlocked | apps/worker/src/routes/user-channels.ts:101-104 | finds the first blocked entry the hostname matches, or reports that none matches |
| UserChannels.SiteHostnames | apps/worker/src/routes/user-channels.ts:127-136 | a site's hostnames are its comma-separated list, each piece trimmed |
| UserChannels.AdmissionRule | apps/worker/src/routes/user-channels.ts:91-140 | a hostname is refused exactly when it matches a blocked entry, and the first match is reported; otherwise the status is "pending" exactly when the hostname matches a site's hostname, else "active"; an empty hostname is active |
| UserChannels.AliasInputs | apps/worker/src/routes/user-channels.ts:181-185 | contributed aliases are saved one per alias, none primary |
| UserChannels.LastApplied | apps/worker/src/routes/user-channels.ts:171-190 | only models the channel lists are saved; on create, an empty alias list is skipped, while on update every entry for a listed model is saved |
| UserChannels.SaveEntriesEffect | apps/worker/src/routes/user-channels.ts:171-190 | after the saves, a model's rows on the channel are those of the last entry that saved anything, or untouched when none did |
| UserChannels.SaveEntriesKeepsOtherChannels | apps/worker/src/routes/user-channels.ts:171-190 | the saves change no other channel's rows |
| UserChannels.Owned | apps/worker/src/routes/user-channels.ts:207-215 | the ownership lookup finds a row with the id, and fails exactly when no row has both the id and the user as contributor |
| UserChannels.UpdateOwned | apps/worker/src/routes/user-channels.ts:222-242 | the update rewrites exactly the user's rows with the id |
| UserChannels.DeleteOwned | apps/worker/src/routes/user-channels.ts:289-295 | the delete keeps exactly the rows not owned by the user under that id |
| UserChannels.SharedModeOnly | apps/worker/src/routes/user-channels.ts:25-28 | outside shared mode every route answers 403 `shared_mode_only` and changes nothing |
| UserChannels.MissingFieldsRefused | apps/worker/src/routes/user-channels.ts:86-88 | a contribution without a truthy name or base URL answers 400 and changes nothing |
| UserChannels.BlockedRecordsOneViolation | apps/worker/src/routes/user-channels.ts:101-125 | a blocked hostname appends exactly one violation naming the matched site, writes no channel and no alias, and answers 403 `hostname_blocked` |
| UserChannels.AdmittedInsertsOneChannel | apps/worker/src/routes/user-channels.ts:127-192 | an admitted contribution appends one channel owned by the user with the admitted status and records no violation; the reply carries the approval note exactly when the status is "pending" |
| UserChannels.ContributedAliases | apps/worker/src/routes/user-channels.ts:171-190 | a model's aliases are saved only when the channel lists the model and its alias list is non-empty; other channels' rows never change |
| UserChannels.NotOwnedIsNotFound | apps/worker/src/routes/user-channels.ts:207-215 | updating or deleting a channel the user does not own answers 404 and changes nothing |
| UserChannels.UpdateTouchesOnlyOwned | apps/worker/src/routes/user-channels.ts:222-242 | an update leaves every row that is not the user's row with that id as it was |
| UserChannels.UpdatedAliases | apps/worker/src/routes/user-channels.ts:245-262 | on update, each entry for a listed model replaces that model's rows, an absent or empty list clearing them, and the last entry wins; unlisted models keep their rows |
| UserChannels.DeleteRemovesOnlyOwned | apps/worker/src/routes/user-channels.ts:279-295 | DELETE removes exactly the user's rows with that id, keeps every other row and leaves the alias rows |
| UserChannels.Contributed | apps/worker/src/routes/user-channels.ts:30-37 | the listing holds exactly the rows the user contributed |
| UserChannels.GroupRows | apps/worker/src/routes/user-channels.ts:55-67 | after the row loop, each (channel, model) entry is the old entry extended with that pair's rows, in row order |
| UserChannels.ListChannelAliases | apps/worker/src/routes/user-channels.ts:43-68 | over all batches, each (channel, model) pair with rows gets its aliases in row order, `alias_only` set iff some row is flagged; no channel gets an empty map |
| UserChannels.ListUserChannels | apps/worker/src/routes/user-channels.ts:24-69 | `GET /` answers 403 outside shared mode; otherwise it returns the user's channels and their aliases grouped per channel and model |
| UserChannels.ListedEntryMeaning | apps/worker/src/routes/user-channels.ts:55-67 | a listed entry holds the pair's aliases in row order and is alias-only iff some row is |
| UserChannels.Registry.SaveAliasEntries | apps/worker/src/routes/user-channels.ts:171-190 | the alias loop run in place leaves the per-channel alias table the specification describes, and the global table untouched |
| UserChannels.Registry.Contribute | apps/worker/src/routes/user-channels.ts:76-193 | `POST /` run in place leaves the tables and reply of the specification |
| UserChannels.Registry.Update | apps/worker/src/routes/user-channels.ts:198-265 | `PATCH /:id` run in place leaves the tables and reply of the specification |
| UserChannels.Registry.Remove | apps/worker/src/routes/user-channels.ts:270-296 | `DELETE /:id` run in place leaves the tables and reply of the specification |
| FormatConverter.BlockTexts | apps/worker/src/services/format-converter.ts:81-83 | a system message's blocks give one text each, missing texts as "" |
| FormatConverter.TextOfBlocksIgnoresOthers | apps/worker/src/services/format-converter.ts:139-149 | blocks whose type is not "text" add nothing to the flattened content |
| FormatConverter.SystemPartsEmpty | apps/worker/src/services/format-converter.ts:76-84 | the system parts are empty exactly when no message has the system role |
| FormatConverter.SplitCounts | apps/worker/src/services/format-converter.ts:76-93 | every message goes to exactly one of the system parts and the message list |
| FormatConverter.SplitOfMessage | apps/worker/src/services/format-converter.ts:77-92 | a system message becomes one system part (its text, the text blocks joined with a newline) and no message; any other message becomes one message with its role mapped to user or assistant and its content kept |
| FormatConverter.SystemPartsAppend | apps/worker/src/services/format-converter.ts:76-84 | the system parts of two runs of messages are those of the first followed by those of the second |
| FormatConverter.NonSystemMessagesAppend | apps/worker/src/services/format-converter.ts:76-93 | the converted messages of two runs of messages are those of the first followed by those of the second |
| FormatConverter.AnthropicRole | apps/worker/src/services/format-converter.ts:86 | an OpenAI non-system role becomes "assistant" exactly when it is "assistant", and "user" otherwise |
| FormatConverter.NonSystemMessages | apps/worker/src/services/format-converter.ts:85-92 | the message list is no longer than the input and holds only user and assistant roles |
| FormatConverter.OpenaiToAnthropicRequest | apps/worker/src/services/format-converter.ts:52-100 | `max_tokens` defaults to 4096; a truthy `stop` becomes `stop_sequences`, as a one-element list when it is a string; `system` is present exactly when some message is a system message, and is then the system parts joined with a blank line; `messages` is the converted non-system messages in order; only a truthy model is copied; `stream`, `temperature` and `top_p` are copied as given |
| FormatConverter.SystemMessagesJoined | apps/worker/src/services/format-converter.ts:95-97 | several system messages are joined with a blank line between them |
| FormatConverter.FlattenMessages | apps/worker/src/services/format-converter.ts:138-151 | each Anthropic message keeps its role, and its block content becomes the concatenated texts of its text blocks |
| FormatConverter.AnthropicToOpenaiRequest | apps/worker/src/services/format-converter.ts:105-155 | a truthy `system` becomes one leading system message, and then come the messages in order with their roles kept and each content flattened to the concatenation of its text blocks; `stop_sequences` becomes `stop`; `max_tokens`, `stream`, `temperature` and `top_p` are copied as given; only a truthy model is copied |
| FormatConverter.EmptySystemBlocksGiveEmptySystemMessage | apps/worker/src/services/format-converter.ts:130-136 | an empty `system` block array is truthy in JavaScript, so it still yields an empty system message |
| FormatConverter.RequestRoundTrip | apps/worker/src/services/format-converter.ts:52-155 | converting a plain user/assistant conversation to Anthropic and back keeps its model, stream flag and messages |
| FormatConverter.MapStopReason | apps/worker/src/services/format-converter.ts:159-172 | the finish reason is "length" exactly for max_tokens, "tool_calls" exactly for tool_use, and "stop" otherwise |
| FormatConverter.MapFinishReason | apps/worker/src/services/format-converter.ts:174-186 | the stop reason is "max_tokens" exactly for length, "tool_use" exactly for tool_calls, and "end_turn" otherwise |
| FormatConverter.StopReasonTablesInverse | apps/worker/src/services/format-converter.ts:159-186 | the two tables undo each other on the OpenAI reasons and on the Anthropic reasons other than stop_sequence, which comes back as end_turn |
| FormatConverter.AnthropicToOpenaiResponse | apps/worker/src/services/format-converter.ts:191-229 | the id is "chatcmpl-" and the Anthropic id (or a fresh UUID); the content is the text blocks joined; usage is present exactly when given, with the total the sum of its parts |
| FormatConverter.AnthropicMessageId | apps/worker/src/services/format-converter.ts:246-248 | the first "chatcmpl-" of a non-empty id becomes "msg_"; a missing or empty id becomes "msg_" and a fresh UUID |
| FormatConverter.MessageIdRewrite | apps/worker/src/services/format-converter.ts:246-248 | a "chatcmpl-" id keeps its suffix under "msg_", and an id without the marker is kept as it is |
| FormatConverter.OpenaiToAnthropicResponse | apps/worker/src/services/format-converter.ts:234-263 | the first choice's text and mapped finish reason are used, or "" and end_turn without choices; missing usage gives zero tokens |
| SseLines.TrimAll | apps/worker/src/services/format-converter.ts:287 | each handled line is the trimmed text before its newline |
| SseLines.PendingLine | apps/worker/src/services/format-converter.ts:288 | the kept tail holds no newline |
| SseLines.Drain | apps/worker/src/services/format-converter.ts:284-331 | after the `indexOf("\n")` loop, the buffer holds no newline and is no longer than before |
| SseLines.DrainIsRunOfLines | apps/worker/src/services/format-converter.ts:284-331 | the loop handles exactly the trimmed complete lines of the buffer, in order, and keeps the last unterminated piece |
| SseLines.DrainAppend | apps/worker/src/services/format-converter.ts:283-331 | chunk boundaries do not matter: two chunks handled one after the other emit what the joined chunk emits |
| SseLines.DrainLoopStep | apps/worker/src/services/format-converter.ts:286-331 | one turn of the loop keeps the invariant that what was emitted, followed by draining the rest, is what draining the whole buffer emits |
| AnthropicToOpenaiStream.ChunkId | apps/worker/src/services/format-converter.ts:370 | a chunk id is "chatcmpl-" and the message id when known, else a fresh UUID |
| AnthropicToOpenaiStream.ConvertEvent | apps/worker/src/services/format-converter.ts:364-443 | every chunk carries that id |
| AnthropicToOpenaiStream.ConvertEventCases | apps/worker/src/services/format-converter.ts:364-443 | message_start gives the assistant role delta, a text_delta gives a chunk with the same text, message_delta gives the mapped finish reason, and other events give nothing; token totals are the sum of their parts |
| AnthropicToOpenaiStream.HandleLineEffects | apps/worker/src/services/format-converter.ts:286-331 | only a parsed "data:" line emits; "[DONE]" is emitted exactly on message_stop; only an "event:" line changes the event type; only message_start changes the message id or model |
| AnthropicToOpenaiStream.Transcoder.Transform | apps/worker/src/services/format-converter.ts:282-332 | `transform` appends the chunk and leaves the buffer, state and output that draining the whole buffer gives |
| AnthropicToOpenaiStream.Transcoder.HandleOne | apps/worker/src/services/format-converter.ts:290-328 | the loop body handles one trimmed line as the step function says |
| AnthropicToOpenaiStream.Transcoder.AbsorbOne | apps/worker/src/services/format-converter.ts:299-324 | a parsed payload is converted, remembered and enqueued as the specification says |
| AnthropicToOpenaiStream.Transcoder.Flush | apps/worker/src/services/format-converter.ts:333-360 | `flush` converts a remaining "data:" line other than "[DONE]", then always emits "[DONE]" |
| AnthropicToOpenaiStream.TextDeltasInOrder | apps/worker/src/services/format-converter.ts:401-416 | under content_block_delta, text_delta lines become content chunks with the same texts, one each, in order |
| AnthropicToOpenaiStream.FirstChunkIdIsFresh | apps/worker/src/services/format-converter.ts:300-311 | the message_start chunk is built before the message id is stored, so its id comes from a fresh UUID, while later chunks use the message's id |
| AnthropicToOpenaiStream.LaterChunksUseMessageId | apps/worker/src/services/format-converter.ts:370 | once the message id is known, every chunk carries it |
| AnthropicToOpenaiStream.DoneTwiceAtMessageStop | apps/worker/src/services/format-converter.ts:319-324 | a message_stop emits "[DONE]", and the flush after it emits a second one |
| AnthropicToOpenaiStream.UnknownEventsEmitNothing | apps/worker/src/services/format-converter.ts:378-442 | lines other than parsed "data:" lines, and events of other types, emit nothing |
| OpenaiToAnthropicStream.BlockIndex | apps/worker/src/services/format-converter.ts:562 | the delta index is the counter before the envelope, and one less than the counter (at least 0) after it |
| OpenaiToAnthropicStream.Transcoder.Transform | apps/worker/src/services/format-converter.ts:458-508 | `transform` appends the chunk and leaves the buffer, state and output that draining the whole buffer gives |
| OpenaiToAnthropicStream.Transcoder.HandleOne | apps/worker/src/services/format-converter.ts:463-506 | the loop body handles one trimmed line as the step function says |
| OpenaiToAnthropicStream.Transcoder.ConvertOne | apps/worker/src/services/format-converter.ts:484-504 | a parsed chunk is converted, and each event is enqueued while the flag and counter are updated |
| OpenaiToAnthropicStream.Transcoder.NoteAll | apps/worker/src/services/format-converter.ts:493-501 | the event loop leaves the flag and counter that tallying all the texts gives |
| OpenaiToAnthropicStream.Transcoder.Note | apps/worker/src/services/format-converter.ts:494-500 | a text mentioning "message_start" sets the flag, and one mentioning "content_block_start" bumps the counter |
| OpenaiToAnthropicStream.Transcoder.Flush | apps/worker/src/services/format-converter.ts:509-518 | `flush` emits message_stop exactly when the envelope was sent |
| OpenaiToAnthropicStream.ChunkEventsShape | apps/worker/src/services/format-converter.ts:522-585 | one conversion emits the envelope (message_start, then content_block_start at the counter) only while it has not been sent; then a text delta exactly when there is content; then a block stop and a message delta exactly when there is a finish reason; every delta and stop index is the block index |
| OpenaiToAnthropicStream.StopMentionsNeither | apps/worker/src/services/format-converter.ts:472-479 | the message_stop text mentions neither mark, so "[DONE]" leaves the flag and counter alone |
| OpenaiToAnthropicStream.TrackCounts | apps/worker/src/services/format-converter.ts:493-501 | the event loop sets the flag exactly when some text mentions "message_start" (or it was set), and adds one to the counter per text mentioning "content_block_start" |
| OpenaiToAnthropicStream.ConvertOpensEnvelope | apps/worker/src/services/format-converter.ts:535-557 | before the envelope is sent, a conversion emits it first, once, and sets the flag |
| OpenaiToAnthropicStream.ConvertAfterEnvelope | apps/worker/src/services/format-converter.ts:535-557 | once the envelope is sent, no conversion emits it again and the flag stays set |
| OpenaiToAnthropicStream.HandleLineEnvelope | apps/worker/src/services/format-converter.ts:462-507 | after the envelope no line emits message_start or content_block_start again; before it, a line emits neither and changes nothing, or emits each once, first, and sets the flag |
| OpenaiToAnthropicStream.EnvelopeAtMostOnce | apps/worker/src/services/format-converter.ts:462-507 | over any sequence of lines, message_start and content_block_start are each emitted at most once |
| OpenaiToAnthropicStream.HandleLineCounts | apps/worker/src/services/format-converter.ts:462-507 | one line grows the counter by the number of emitted texts that mention "content_block_start" |
| OpenaiToAnthropicStream.RunCounts | apps/worker/src/services/format-converter.ts:462-507 | over any sequence of lines, the counter is the number of emitted texts mentioning "content_block_start" |
| OpenaiToAnthropicStream.DeltaIndexFollowsMentions | apps/worker/src/services/format-converter.ts:493-501 | every delta and stop index is one less than the number of emitted texts so far that mention "content_block_start", or 0 while there are none |
| OpenaiToAnthropicStream.DoneBecomesMessageStop | apps/worker/src/services/format-converter.ts:472-481 | "[DONE]" becomes a message_stop event and changes nothing else |
| OpenaiToAnthropicStream.DoneThenFlush | apps/worker/src/services/format-converter.ts:472-518 | after "[DONE]", the flush of a stream whose envelope was sent emits a second message_stop; before the envelope it emits nothing |
| OpenaiToAnthropicStream.TextOnlyChunk | apps/worker/src/services/format-converter.ts:559-568 | after the envelope, a chunk with only text becomes one text delta at the current block index |
| OpenaiToAnthropicStream.MentionInTextShiftsIndex | apps/worker/src/services/format-converter.ts:493-501 | a chunk whose text contains "content_block_start" bumps the counter (the test is a substring test on the whole event), so the next delta names a block that was never started |
| Proxy.KeepIds | apps/worker/src/routes/proxy.ts:25-26 | the allowed channels are exactly the channels whose id is listed, in their original order |
| Proxy.FilterAllowed | apps/worker/src/routes/proxy.ts:20-27 | an absent, unparsable or empty `allowed_channels` list allows every channel; otherwise only the listed ones |
| Proxy.ModelChannels | apps/worker/src/routes/proxy.ts:12-18 | the model's channels are exactly the allowed channels that support the model |
| Proxy.CandidatesChoice | apps/worker/src/routes/proxy.ts:72-74 | the candidates are allowed channels; they all support the model unless no allowed channel does, in which case they are all the allowed channels |
| Proxy.Dispatch | apps/worker/src/routes/proxy.ts:84-136 | the retry loop run in place leaves the state the round-by-round specification gives, and counts every upstream call |
| Proxy.SweepCalls | apps/worker/src/routes/proxy.ts:93-126 | a round calls the channels in order, one call each, each answered by the `fetch` oracle |
| Proxy.SweepStopsAtSuccess | apps/worker/src/routes/proxy.ts:110-117 | a round stops early only on a 2xx reply, and no call but its last succeeded |
| Proxy.SweepLast | apps/worker/src/routes/proxy.ts:94-125 | the last response and channel after a round are those of its last call; a thrown call clears the last response |
| Proxy.SweepSelected | apps/worker/src/routes/proxy.ts:110-116 | a round ends with a channel selected exactly when its last call got a 2xx; the usage is read from the reply unless streaming |
| Proxy.SweepRetry | apps/worker/src/routes/proxy.ts:119-125 | a round asks for another exactly when one of its calls got 408, 429 or a 5xx, or threw |
| Proxy.RoundsCount | apps/worker/src/routes/proxy.ts:90-136 | the loop runs at least one round and at most the rounds allowed, sleeps once between consecutive rounds, and calls each channel at most once per round |
| Proxy.AttemptsBound | apps/worker/src/routes/proxy.ts:90-136 | the loop makes at most `retryRounds` times as many calls as there are channels |
| Proxy.RoundsSelected | apps/worker/src/routes/proxy.ts:91-130 | the loop ends with a channel selected exactly when the last call of its last round got a 2xx, and that channel is the one called last |
| Proxy.RoundsLast | apps/worker/src/routes/proxy.ts:91-136 | the last response and channel are those of the last call of the last round |
| Proxy.EmptyLastRound | apps/worker/src/routes/proxy.ts:91-136 | with no channels every round is empty and leaves the state as it was |
| Proxy.UnselectedRoundIsFull | apps/worker/src/routes/proxy.ts:93-126 | a round that ends unselected called every channel and got no 2xx |
| Proxy.RoundsEarlier | apps/worker/src/routes/proxy.ts:128-135 | every round but the last called all channels without a 2xx and had a retryable call; a loop that stops unselected early does so because its last round had no retryable call |
| Proxy.RoundsCallInOrder | apps/worker/src/routes/proxy.ts:93 | every round calls the channels in the weighted order, starting again from the first |
| Proxy.RetryRounds | apps/worker/src/routes/proxy.ts:82 | there is at least one round, and the configured number when it is at least 1 |
| Proxy.Serve | apps/worker/src/routes/proxy.ts:61-170 | the handler run in place gives the answer and usage records of the specification |
| Proxy.NoChannelsIs503 | apps/worker/src/routes/proxy.ts:76-78 | with no allowed channel the handler answers 503 `no_available_channels` and records nothing |
| Proxy.OneRecordPerRequest | apps/worker/src/routes/proxy.ts:138-167 | whatever channels the loop is given, what follows it writes exactly one usage record, and answers 502 exactly when no call was made or the last call threw |
| Proxy.ForwardedIsLastReply | apps/worker/src/routes/proxy.ts:152-169 | when the last call got an answer, that answer is returned and recorded against the last channel called, as ok exactly when the loop selected a channel |
| Proxy.HandleConcludes | apps/worker/src/routes/proxy.ts:80-169 | with some channel allowed, the answer is what follows the retry loop |
| Proxy.ConcludeForwarded | apps/worker/src/routes/proxy.ts:152-167 | the usage record names the channel called last and is ok exactly for a 2xx |
| PlaygroundRoute.BuildBody | apps/worker/src/routes/playground.ts:46-55 | the upstream body carries the model, the messages and the stream flag, and asks for usage exactly when streaming |
| PlaygroundRoute.StreamFlag | apps/worker/src/routes/playground.ts:40 | an absent `stream` means streaming; a given one is used as it is |
| PlaygroundRoute.TryKeys | apps/worker/src/routes/playground.ts:82-137 | the key loop of one channel run in place gives the calls, last response and retry flag of the specification, and hands back a 2xx at once |
| PlaygroundRoute.TryChannels | apps/worker/src/routes/playground.ts:81-142 | one round over the ordered channels, each with freshly shuffled keys, matches the specification |
| PlaygroundRoute.TryRounds | apps/worker/src/routes/playground.ts:78-149 | the retry rounds run in place match the specification and stop at the first 2xx |
| PlaygroundRoute.Chat | apps/worker/src/routes/playground.ts:33-155 | the `/chat` handler run in place gives the answer, calls and sleeps of the specification |
| PlaygroundRoute.KeyCalls | apps/worker/src/routes/playground.ts:82-85 | a channel's key loop calls its keys in order, one call each, each answered by the oracle; a channel without keys makes no call |
| PlaygroundRoute.KeyStops | apps/worker/src/routes/playground.ts:111-136 | another key is tried only after a retryable status or a transport error; the loop stops early only on a 2xx or a non-retryable status, and a 2xx wins exactly when it ends the loop |
| PlaygroundRoute.KeyState | apps/worker/src/routes/playground.ts:127-136 | `lastResponse` follows the last call (cleared by a transport error), and the channel is retryable exactly when some call was |
| PlaygroundRoute.KeyCallsOk | apps/worker/src/routes/playground.ts:111-125 | either no call of a channel got a 2xx, or only its last did, and that reply is the one returned |
| PlaygroundRoute.KeyOutcome | apps/worker/src/routes/playground.ts:85-137 | a channel's key loop ends without a 2xx, or is won by that channel |
| PlaygroundRoute.ChannelOutcome | apps/worker/src/routes/playground.ts:81-142 | a round ends without a 2xx, or is won by the channel of its last call |
| PlaygroundRoute.RoundOutcome | apps/worker/src/routes/playground.ts:78-149 | the whole loop ends without a 2xx, or is won by its last call |
| PlaygroundRoute.ChatRefuses | apps/worker/src/routes/playground.ts:40-70 | a request without a model or messages answers 400 `invalid_request`; only channels supporting the model are candidates, with no fallback, and none means 503; neither makes a call |
| PlaygroundRoute.ChatAnswers | apps/worker/src/routes/playground.ts:78-154 | the answer is the converted 2xx exactly when some call got one, and that call was the last, with no 2xx before it; otherwise the answer is 502 when there was no call or the last one threw, else the last response |
| PlaygroundRoute.ChannelCalls | apps/worker/src/routes/playground.ts:81-142 | a round makes at most one call per key of each channel |
| PlaygroundRoute.RoundCalls | apps/worker/src/routes/playground.ts:78-149 | when every round makes at most `total` calls, the rounds from a given one on make at most `total` calls per remaining round |
| PlaygroundSweep.UnwonRoundSweepsAll | apps/worker/src/routes/playground.ts:81-142 | a non-retryable status stops only its own channel's keys: a round that ends without a 2xx went on through every later channel in order, each getting a block of at most one call per key, empty exactly when the channel has no keys |
| PlaygroundSweep.UnwonRoundCallsKeyed | apps/worker/src/routes/playground.ts:81-142 | a round that ends without a 2xx called every channel with keys at least once |
| PlaygroundRoute.CallBudget | apps/worker/src/routes/playground.ts:78-149 | a whole request makes at most `retryRounds` times as many upstream calls as the candidate channels have keys |
| PlaygroundRoute.RoundRetries | apps/worker/src/routes/playground.ts:139-149 | the loop runs between one and the allowed rounds, sleeps only between rounds, starts another round only after a retryable one, and stops early without a 2xx only after a round with nothing retryable |
| Keys.NonBlankTrimmed | apps/worker/src/utils/keys.ts:2 | the kept keys are trimmed and non-blank, and no more than the lines |
| Keys.NonBlankTrimmedLine | apps/worker/src/utils/keys.ts:2 | a single line gives its trimmed text, or nothing when that is blank |
| Keys.NonBlankTrimmedAppend | apps/worker/src/utils/keys.ts:2 | the keys of two runs of lines are the keys of the first followed by those of the second, so every key comes from its own line, in line order |
| Keys.ParseApiKeys | apps/worker/src/utils/keys.ts:1-3 | every parsed key is trimmed, non-empty and free of newlines, and there are no more keys than lines |
| Keys.ParseApiKeysOfLines | apps/worker/src/utils/keys.ts:1-3 | the keys of newline-joined lines are those lines trimmed, in order, with the blank ones dropped |
| Keys.ParseJoinedKeys | apps/worker/src/utils/keys.ts:1-3 | clean keys joined with newlines parse back to the same list |
| Keys.Swap | apps/worker/src/utils/keys.ts:9 | the swap exchanges two positions and keeps the rest |
| Keys.FisherYatesPermutes | apps/worker/src/utils/keys.ts:7-10 | every run of the shuffle's swaps is a permutation of its input |
| Keys.ShuffleArray | apps/worker/src/utils/keys.ts:5-12 | the in-place shuffle of a copy returns the swaps' result, a permutation of the input |
| Url.StripTrailingSlashes | apps/worker/src/utils/url.ts:14 | the result is the input without its run of trailing slashes, and does not end in '/' |
| Url.NormalizeBaseUrl | apps/worker/src/utils/url.ts:10-16 | the empty URL stays empty; otherwise the result is a prefix of the trimmed input |
| Url.NormalizeRemovesSlashesThenV1 | apps/worker/src/utils/url.ts:14-15 | what normalisation removes from the trimmed input is a run of trailing slashes, preceded by at most one "/v1" in either case; when only slashes go, all of them go and no "/v1" is left at the end; when the input ends in "/v1" once its slashes are gone, that "/v1" is removed |
| Url.NormalizeDropsTrailingV1 | apps/worker/src/utils/url.ts:14-15 | a trailing "/v1" is dropped, with or without slashes after it, and in either case |
| Url.NormalizeNotIdempotent | apps/worker/src/utils/url.ts:15 | normalisation is not idempotent: "/v1/v1" loses one segment per call |
| Url.HostnameMatchesAtDotBoundary | apps/worker/src/utils/url.ts:37-40 | a hostname matches exactly when both are non-empty and it is the site hostname or ends with it right after a '.' |
| Url.HostnameMatchesExamples | apps/worker/src/utils/url.ts:33-40 | "api.example.com" matches "example.com" and "badexample.com" does not; an empty hostname never matches |
| ModelAliases.FirstWithAlias | apps/worker/src/services/model-aliases.ts:33-36 | the lookup returns a row whose alias is the name, and fails exactly when no row has it |
| ModelAliases.FirstWithAliasIsFirst | apps/worker/src/services/model-aliases.ts:33-36 | the row `.first()` returns is the matching row with the smallest index |
| ModelAliases.ResolveModelNames | apps/worker/src/services/model-aliases.ts:28-41 | the names start with the requested name and have one or two elements; the second is a model some row aliases the name to, and differs from the name |
| ModelAliases.ResolveUsesFirstRow | apps/worker/src/services/model-aliases.ts:28-41 | the second name comes from the first row whose alias is the name; with no such row, or when that row names the model itself, the result is the name alone |
| ModelAliases.LastWinsLookup | apps/worker/src/services/model-aliases.ts:52-55 | filling a map with `map.set` keeps a key exactly when some row has it, with the value of the last such row |
| ModelAliases.FirstWinsLookup | apps/worker/src/services/model-aliases.ts:243-249 | filling a map only when the key is new keeps a key exactly when some row has it, with the value of the first such row |
| ModelAliases.PrimaryPairs | apps/worker/src/services/model-aliases.ts:49-51 | the primary query yields at most one pair per row |
| ModelAliases.PrimaryMapKeys | apps/worker/src/services/model-aliases.ts:49-56 | a model is a key of the primary name map exactly when it has a primary row |
| ModelAliases.PrimaryMapLastRowWins | apps/worker/src/services/model-aliases.ts:49-56 | a model's entry is the alias of its last primary row |
| ModelAliases.AliasPairs | apps/worker/src/services/model-aliases.ts:65-67 | the alias query yields (alias, model) for every row, in row order |
| ModelAliases.ChannelAliasPairs | apps/worker/src/services/model-aliases.ts:240-242 | the per-channel query yields (alias, model) for every row, in row order |
| ModelAliases.LoadPrimaryNameMap | apps/worker/src/services/model-aliases.ts:46-57 | the loop builds the map from model to primary alias in which the last primary row of a model wins |
| ModelAliases.LoadAliasMap | apps/worker/src/services/model-aliases.ts:62-73 | the loop builds the map from alias to model in which the last row of an alias wins |
| ModelAliases.LoadAllChannelAliasMap | apps/worker/src/services/model-aliases.ts:237-251 | the loop builds the map from alias to model over all channels in which the first row of an alias wins |
| ModelAliases.AliasMapLastRowWins | apps/worker/src/services/model-aliases.ts:68-71 | the alias map holds, for each alias, the model of its last row |
| ModelAliases.ChannelAliasMapFirstRowWins | apps/worker/src/services/model-aliases.ts:243-249 | the per-channel alias map holds, for each alias, the model of its first row, whatever rows follow |
| ModelAliases.AliasOnlySet | apps/worker/src/services/model-aliases.ts:78-85 | the alias-only set holds exactly the models with some `alias_only = 1` row |
| ModelAliases.LoadChannelAliasOnlyMap | apps/worker/src/services/model-aliases.ts:257-270 | a channel is a key exactly when it has an alias-only row, and its set is exactly the models of those rows |
| ModelAliases.View | apps/worker/src/services/model-aliases.ts:101 | a listed alias keeps its text, and its flags are true exactly when the columns are 1 |
| ModelAliases.GetAliasesForModel | apps/worker/src/services/model-aliases.ts:110-125 | the listing is the views of the model's rows, one per row, in row order |
| ModelAliases.Views | apps/worker/src/services/model-aliases.ts:120-124 | the views are one per row, each the view of its row |
| ModelAliases.ViewsAppend | apps/worker/src/services/model-aliases.ts:120-124 | the views of two runs of rows are those of the first followed by those of the second |
| ModelAliases.ViewsOfRows | apps/worker/src/services/model-aliases.ts:110-125 | the listing the query and map build is the views of the rows whose model matches, in row order |
| ModelAliases.ListAllAliases | apps/worker/src/services/model-aliases.ts:90-105 | the loop maps each model with rows, and only those, to the views of its rows, every row once, in row order |
| ModelAliases.ChannelAliasesByAlias | apps/worker/src/services/model-aliases.ts:218-231 | the lookup lists no more entries than there are rows |
| ModelAliases.ChannelAliasesMembers | apps/worker/src/services/model-aliases.ts:218-231 | an entry is listed exactly when some row has the alias and gives that channel, that model and a flag true exactly when the column is 1 |
| ModelAliases.ChannelAliasesOfRow | apps/worker/src/services/model-aliases.ts:226-230 | a single row gives its entry when its alias matches and nothing otherwise |
| ModelAliases.ChannelAliasesAppend | apps/worker/src/services/model-aliases.ts:218-231 | the entries of two runs of rows are those of the first followed by those of the second, so the entries keep the rows' order |
| ModelAliases.NewAliasRows | apps/worker/src/services/model-aliases.ts:142-156 | one row is inserted per input, in order, with the model, the alias, `is_primary` as 1 or 0 and the shared `alias_only` flag |
| ModelAliases.WithoutModel | apps/worker/src/services/model-aliases.ts:138-140 | the delete keeps exactly the rows of other models |
| ModelAliases.WithoutModelKeepsOthers | apps/worker/src/services/model-aliases.ts:138-140 | deleting one model's rows leaves every other model's rows, in order |
| ModelAliases.SaveAliasesReplaces | apps/worker/src/services/model-aliases.ts:131-159 | after the save the model's rows are exactly the inputs, in order, all with the one `alias_only` flag, and every other model's rows are as before |
| ModelAliases.NewChannelAliasRows | apps/worker/src/services/model-aliases.ts:194-209 | one per-channel row is inserted per input, in order, for the channel and model |
| ModelAliases.WithoutPair | apps/worker/src/services/model-aliases.ts:190-192 | the delete keeps exactly the rows of other (channel, model) pairs |
| ModelAliases.WithoutPairKeepsOthers | apps/worker/src/services/model-aliases.ts:190-192 | deleting one pair's rows leaves every other pair's rows, in order |
| ModelAliases.SaveChannelAliasesReplaces | apps/worker/src/services/model-aliases.ts:182-212 | after the save the pair's rows are exactly the inputs, in order, with the one flag, and every other pair's rows are as before |
| ModelAliases.AliasTables.SaveAliasesForModel | apps/worker/src/services/model-aliases.ts:131-159 | the batch deletes the model's rows and appends the new ones, and leaves the per-channel table alone |
| ModelAliases.AliasTables.DeleteAliasesForModel | apps/worker/src/services/model-aliases.ts:164-172 | the model's rows are deleted and nothing else changes |
| ModelAliases.AliasTables.SaveChannelAliases | apps/worker/src/services/model-aliases.ts:182-212 | the batch deletes the pair's rows and appends the new ones, and leaves the global table alone |
| Md5.PadLength | apps/worker/src/utils/crypto.ts:23 | the zero run is shorter than one block and brings input, marker, zeros and length field to a multiple of 64 bytes |
| Md5.PaddedLength | apps/worker/src/utils/crypto.ts:23-24 | the padded buffer is a whole number of 64-byte blocks, between 9 and 72 bytes longer than the input |
| Md5.PaddedContents | apps/worker/src/utils/crypto.ts:24-26 | the buffer starts with the input, then one 0x80 byte, then zero bytes up to the length field |
| Md5.LengthTail | apps/worker/src/utils/crypto.ts:29-30 | the buffer ends with the bit length modulo 2^32, little-endian, and a zero word |
| Md5.Le64HighZero | apps/worker/src/utils/crypto.ts:29-30 | writing two 32-bit words equals writing the 64-bit field of RFC 1321 section 3.2 exactly when the value fits in 32 bits |
| Md5.LengthField | apps/worker/src/utils/crypto.ts:22-30 | the last eight bytes are the bit length modulo 2^64 exactly when that length fits in 32 bits, which holds for every input shorter than 2^29 bytes |
| Md5.LengthFieldAt2To29 | apps/worker/src/utils/crypto.ts:29 | for a 2^29-byte input the buffer records a bit length of 0 where RFC 1321 records 2^32 |
| Md5.Shift | apps/worker/src/utils/crypto.ts:39-44 | every shift amount lies strictly between 0 and 32 |
| Md5.WordIndex | apps/worker/src/utils/crypto.ts:80-92 | every step reads one of the 16 message words |
| Md5.WordAtValue | apps/worker/src/utils/crypto.ts:72 | a little-endian word read from four bytes is the number those bytes spell |
| Md5.BlockWords | apps/worker/src/utils/crypto.ts:70-73 | every block gives exactly 16 words |
| Md5.HexOfDigits | apps/worker/src/utils/crypto.ts:114-116 | the hex encoding uses only lowercase hexadecimal digits |
| Md5.HexOfAppend | apps/worker/src/utils/crypto.ts:114-116 | encoding a concatenation is concatenating the encodings |
| Md5.DigestBytes | apps/worker/src/utils/crypto.ts:107-112 | the digest is 16 bytes: a0, b0, c0, d0, each least significant byte first |
| Md5.Md5HexWords | apps/worker/src/utils/crypto.ts:107-116 | the hex digest is the four state words' encodings in order |
| Md5.Md5HexShape | apps/worker/src/utils/crypto.ts:17-117 | every digest is exactly 32 lowercase hexadecimal digits |
| Md5.PutUint32 | apps/worker/src/utils/crypto.ts:29-30 | `setUint32` overwrites exactly four bytes with the little-endian value and keeps the rest of the buffer |
| Md5.Pad | apps/worker/src/utils/crypto.ts:19-30 | the new buffer holds exactly the padded message |
| Md5.ProcessBlock | apps/worker/src/utils/crypto.ts:75-103 | the 64-step loop and the addition into a0..d0 compute the compression function of RFC 1321 section 3.4 |
| Md5.ReadBlock | apps/worker/src/utils/crypto.ts:70-73 | the inner loop reads the block's 16 little-endian words |
| Md5.AfterBlocksStep | apps/worker/src/utils/crypto.ts:69-104 | each further block folds one more compression into the state |
| Md5.Md5Hex | apps/worker/src/utils/crypto.ts:17-117 | the method returns the hex digest of the model's MD5 specification, for every input |
| Md5Vectors.EmptyDigest | apps/worker/src/utils/crypto.ts:69-104 | the state words after the empty input's single block are the ones RFC 1321 appendix A.5 gives |
| Md5Vectors.EmptyVector | apps/worker/src/utils/crypto.ts:17-117 | the digest of the empty input is d41d8cd98f00b204e9800998ecf8427e, as RFC 1321 appendix A.5 lists |
| Md5Vectors.AbcDigest | apps/worker/src/utils/crypto.ts:69-104 | the state words after the one block of "abc" are the ones appendix A.5 implies |
| Md5Vectors.AbcVector | apps/worker/src/utils/crypto.ts:17-117 | the digest of "abc" is 900150983cd24fb0d6963f7d28e17f72, as appendix A.5 lists |
| Token.UrlChar | apps/worker/src/utils/crypto.ts:124-127 | the URL-safe alphabet never yields `=`, `+` or `/` |
| Token.UrlIndex | apps/worker/src/utils/crypto.ts:124-127 | a character has a digit value exactly when it is URL-safe, and that digit maps back to it |
| Token.Sextets | apps/worker/src/utils/crypto.ts:124 | the bytes split into 4 digits per full group of three and 2 or 3 for a final partial group |
| Token.Padding | apps/worker/src/utils/crypto.ts:124 | `btoa` appends as many `=` as the last group lacks |
| Token.Base64Length | apps/worker/src/utils/crypto.ts:124 | `btoa` output has four characters per started group of three bytes |
| Token.ReplaceAll | apps/worker/src/utils/crypto.ts:125-126 | each global replace changes every occurrence of one character and nothing else |
| Token.StripPadding | apps/worker/src/utils/crypto.ts:127 | the strip removes exactly the trailing run of `=` and keeps the prefix before it |
| Token.StripPaddingAfter | apps/worker/src/utils/crypto.ts:127 | stripping padding that follows a string not ending in `=` gives that string back |
| Token.UrlSafeOfBase64 | apps/worker/src/utils/crypto.ts:124-127 | the replace-and-strip pipeline over `btoa` is the URL-safe unpadded encoding of RFC 4648 section 5 |
| Token.GenerateToken | apps/worker/src/utils/crypto.ts:122-129 | the token is the prefix followed by 32 URL-safe characters |
| Token.UrlDigitsOfMap | apps/worker/src/utils/crypto.ts:124-127 | reading the URL-safe digits of an encoded string gives the digits back |
| Token.BytesOfSextets | apps/worker/src/utils/crypto.ts:124 | joining the digits of the bytes gives the bytes back |
| Token.DecodeUrlEncode | apps/worker/src/utils/crypto.ts:124-127 | decoding a token body gives back the 24 random bytes it was made from |
| Token.GenerateTokenInjective | apps/worker/src/utils/crypto.ts:122-129 | two tokens with one prefix are equal exactly when their random bytes are |
| Withdrawal.NoPointNoDecimals | apps/worker/src/routes/withdrawal.ts:43-46 | an amount written without a point never fails the two-decimals check |
| Withdrawal.DecimalsOfPointed | apps/worker/src/routes/withdrawal.ts:43-46 | an amount `int.frac` fails the check exactly when `frac` has more than two digits |
| Withdrawal.AcceptedIff | apps/worker/src/routes/withdrawal.ts:24-83 | a request passes every check before the deduction exactly when it has a body, withdrawals are enabled, both Linux.do fields are set, the amount is positive with at most two decimals, the user exists with enough withdrawable and total balance, the gateway is configured and the net LDC is positive; every refusal is an error reply |
| Withdrawal.WithStatus | apps/worker/src/routes/withdrawal.ts:131-135 | the status update changes every order with the id, and only those, and keeps the order list's length |
| Withdrawal.RefusalMessage | apps/worker/src/routes/withdrawal.ts:147-153 | the stored message is the first 512 characters of the gateway's text, or `distribute_failed` when it cannot be read |
| Withdrawal.RejectedChangesNothing | apps/worker/src/routes/withdrawal.ts:24-83 | a refused request leaves both tables as they were and returns the refusal |
| Withdrawal.DebitOnlyUnderGuard | apps/worker/src/routes/withdrawal.ts:92-100 | balances change only when the user existed with balance and withdrawable balance both at least the amount |
| Withdrawal.AcceptedPassesGuard | apps/worker/src/routes/withdrawal.ts:92-107 | in a sequential run an accepted request always passes the deduction guard and creates one order |
| Withdrawal.CompletedDebitsAmount | apps/worker/src/routes/withdrawal.ts:92-143 | when the gateway accepts, both balances drop by exactly the amount, the new order is `completed` and the reply carries the order id and the amounts |
| Withdrawal.FailedRefundsAmount | apps/worker/src/routes/withdrawal.ts:146-184 | when the gateway refuses or cannot be reached, the refund restores both balances, the new order is `failed` with its message and the reply is a 502 |
| Withdrawal.BalancesStayNonNegative | apps/worker/src/routes/withdrawal.ts:92-184 | non-negative balances stay non-negative whatever the gateway does |
| Withdrawal.PaidButRefunded | apps/worker/src/routes/withdrawal.ts:129-184 | when marking the order `completed` throws after the gateway paid, the `catch` refunds both balances and marks the order `failed`, so the balances end where they started although the payout was made |
| Withdrawal.RefundThrowsRefundsOnce | apps/worker/src/routes/withdrawal.ts:155-184 | when the refund after a refusal throws, the `catch` refunds once, leaving the balances a plain refusal leaves |
| Withdrawal.RefundedTwice | apps/worker/src/routes/withdrawal.ts:155-184 | when marking the order `failed` throws after the refund, the `catch` refunds again, so both balances end the amount above where they started |
| Withdrawal.Store.Deduct | apps/worker/src/routes/withdrawal.ts:92-100 | the guarded update debits the user exactly when the guard holds, and reports whether it did |
| Withdrawal.Store.Refund | apps/worker/src/routes/withdrawal.ts:155-159 | the refund credits both balances of an existing user and changes nothing else |
| Withdrawal.Store.SetStatus | apps/worker/src/routes/withdrawal.ts:161-165 | the order table takes the status update and the users are untouched |
| Withdrawal.Store.Open | apps/worker/src/routes/withdrawal.ts:24-107 | a refused request changes nothing; an accepted one is debited and gets a `pending` order |
| Withdrawal.Store.Settle | apps/worker/src/routes/withdrawal.ts:129-184 | the gateway's answer marks the order `completed` or refunds and marks it `failed`, with the matching reply |
| Withdrawal.Store.CreateOrder | apps/worker/src/routes/withdrawal.ts:21-186 | the tables and the reply after `POST /create` are those of the request's specification |
| Grouping.Dedup | apps/worker/src/routes/models.ts:14-18 | the keys of a `Map` filled by `set`: distinct, and exactly the keys that occur |
| Grouping.FirstIndex | apps/worker/src/routes/models.ts:14-18 | the position of a key's first occurrence, which is the one that creates its `Map` entry |
| Grouping.DedupInFirstAppearanceOrder | apps/worker/src/routes/models.ts:22 | `map.values()` follows insertion order: keys come in the order of their first appearance |
| Grouping.ValuesOf | apps/worker/src/routes/models.ts:15-18 | a key's array is empty exactly when the key never occurs, and holds every value paired with it and no other |
| Grouping.GroupInOrder | apps/worker/src/routes/models.ts:14-19 | the loop's keys are the distinct keys in first-appearance order, and each key's array holds its values in input order |
| Grouping.GroupedTotal | apps/worker/src/routes/models.ts:15-19 | every pair is pushed under exactly one key |
| Grouping.GroupEntries | apps/worker/src/routes/public.ts:24-63 | the grouping loop followed by reading the entries back returns the specification's entries |
| Grouping.EntriesKeys | apps/worker/src/routes/public.ts:56-63 | every key is in exactly one entry, the entries' keys are those of the pairs, and they come in first-appearance order |
| Grouping.EntriesHoldEachPair | apps/worker/src/routes/public.ts:37-56 | each pair's value sits in the entry of its key, and that entry holds only that key's values, in order |
| Grouping.EntriesTotal | apps/worker/src/routes/public.ts:34-58 | the entries hold as many values as there were pairs |
| Models.Pairs | apps/worker/src/routes/models.ts:15-17 | each extracted model entry is grouped under its model id and pushes its channel's id and name |
| Models.ListModels | apps/worker/src/routes/models.ts:10-24 | `GET /` returns the model entries grouped by model id, in first-appearance order |
| Models.ListingAccountsForEveryEntry | apps/worker/src/routes/models.ts:10-24 | every entry's channel is listed under its own model, each model once, and the references number as many as the entries |
| PublicModels.Pushes | apps/worker/src/routes/public.ts:34-58 | the nested loop pushes once per (channel, pricing entry), in channel then pricing order |
| PublicModels.Response | apps/worker/src/routes/public.ts:16-66 | personal mode, and only it, is refused with 403; every listing echoes the site mode |
| PublicModels.ListPublicModels | apps/worker/src/routes/public.ts:16-66 | the route returns the response of its specification |
| PublicModels.ListedRefsArePushed | apps/worker/src/routes/public.ts:36-56 | every reference listed under a model comes from a pricing entry for that model |
| PublicModels.SharedModeMasks | apps/worker/src/routes/public.ts:38-46 | in shared mode every reference has the shared name and no prices |
| PublicModels.OtherModesExpose | apps/worker/src/routes/public.ts:47-55 | in every other open mode a reference carries its channel's id and name and the pricing entry's prices, an absent price staying null |
| PublicModels.OneRefPerPricing | apps/worker/src/routes/public.ts:34-63 | one reference per (channel, pricing entry), and each model id listed once |
| PlaygroundView.ReadChunk | apps/ui/src/features/PlaygroundView.tsx:115-148 | one turn of the read loop leaves the buffer, the text and the usage that draining the buffer plus the chunk gives |
| PlaygroundView.ReadCompleteLine | apps/ui/src/features/PlaygroundView.tsx:120-147 | one complete line is trimmed and handled by the line rule |
| PlaygroundView.RunOneMore | apps/ui/src/features/PlaygroundView.tsx:120-148 | handling one more line extends the fold over the earlier lines by that line's effect |
| PlaygroundView.ReceivedOneMore | apps/ui/src/features/PlaygroundView.tsx:111-118 | reading one more chunk continues the drain of the concatenated body |
| PlaygroundView.ReadStream | apps/ui/src/features/PlaygroundView.tsx:105-149 | after the loop the text, the usage and the buffer are what draining the whole body yields, however it was split into chunks |
| PlaygroundView.AccumulatedIsDeltas | apps/ui/src/features/PlaygroundView.tsx:137-141 | the accumulated text is the in-order concatenation of the lines' delta contents |
| PlaygroundView.UsageIsLast | apps/ui/src/features/PlaygroundView.tsx:142-144 | the usage kept is that of the last parsed chunk that carried one |
| PlaygroundView.OnlyDataLinesCount | apps/ui/src/features/PlaygroundView.tsx:121-124 | a line changes nothing unless it is a parsable `data: ` line other than `[DONE]` |
| PlaygroundView.UnterminatedTailIgnored | apps/ui/src/features/PlaygroundView.tsx:116-118 | text after the body's last newline is never handled and changes only the buffer |
| PlaygroundView.ReplyIsDeltas | apps/ui/src/features/PlaygroundView.tsx:105-164 | the reply is the concatenation of the delta contents of the body's complete trimmed lines, and the unterminated tail takes no part |
| PlaygroundView.Playground.Send | apps/ui/src/features/PlaygroundView.tsx:62-171 | nothing happens unless the trimmed input is non-empty, a model is selected and no send is running; otherwise the user message is appended, the input cleared, and the outcome sets the error, the usage, the streaming text left on screen and whether an assistant message with the streamed text follows |
| PlaygroundView.StreamFailureKeepsPartial | apps/ui/src/features/PlaygroundView.tsx:111-167 | when reading the body fails after some chunks, the text streamed so far stays on screen, no assistant message or usage is recorded, and the error is the failure's message |
| LdcReward.FourDigitsRoundTrip | ldc-reward.user.js:209-211 | the random part is exactly four decimal digits whose value is the draw |
| LdcReward.TradeNoShape | ldc-reward.user.js:205-225 | the trade number starts with `LDR_Z_` exactly for ZenAPI tips and with `LDR_T` otherwise, and ends in the timestamp and the four-digit draw |
| LdcReward.SweepRule | ldc-reward.user.js:359-368 | the sweep deletes exactly the entries older than two minutes and keeps the rest unchanged; it is idempotent and a later sweep keeps no entry an earlier one removed |
| LdcReward.SendRule | ldc-reward.user.js:384-423 | without a configuration, or while the same (topic, post, user) is pending, the send is refused with its message and the map is unchanged; otherwise the key is added with the trade number and the time, and the request carries that trade number |
| LdcReward.SecondSendRefused | ldc-reward.user.js:391-396 | sending the same tip again before the first completes is refused |
| LdcReward.VerdictRule | ldc-reward.user.js:424-487 | success exactly on a 200 answer that parses with no error message and has a `data` object, reporting its trade number, possibly undefined; a 200 answer that does not parse or has no `data` reports the parse failure; other statuses report `HTTP <status>: ` and a reason; a network error or a timeout reports its fixed text; every failure carries a message |
| LdcReward.SuccessWithoutTradeNo | ldc-reward.user.js:464-467 | a 200 answer whose `data` has no `trade_no` is still a success, with an undefined message |
| LdcReward.Completed | ldc-reward.user.js:426 | completion removes the request's key, whatever the outcome, and keeps every other key |
| LdcReward.PendingUntilReleased | ldc-reward.user.js:359-426 | a sent tip blocks resending until it completes or a sweep more than two minutes later removes it |
| LdcReward.RewardSender.Cleanup | ldc-reward.user.js:359-368 | the loop over the entries leaves the swept map |
| LdcReward.RewardSender.SendReward | ldc-reward.user.js:384-423 | the pending map and the outcome are those of the send rule |
| LdcReward.RewardSender.Complete | ldc-reward.user.js:424-487 | the key is released and the reported verdict is that of the answer |
| LdcReward.RemarkRule | ldc-reward.user.js:969-975 | the remark ends in the plugin's signature, preceded by the trimmed input or by `打赏` when the input is blank |
| LdcReward.Pieces | ldc-reward.user.js:689 | splitting on runs of separators gives at least one piece, and the last piece is empty exactly when the name is empty or ends in a separator |
| LdcReward.Upper | ldc-reward.user.js:692 | upper-casing keeps the length and maps each character |
| LdcReward.FirstCharsAreWordStarts | ldc-reward.user.js:688-691 | the first characters of the pieces are exactly the characters that start a word, in order |
| LdcReward.WordStartsMembers | ldc-reward.user.js:688-691 | every initial candidate is a character of the name that starts a word |
| LdcReward.InitialsRule | ldc-reward.user.js:687-693 | the initials are the upper-cased first characters of the name's first two words, at most two of them |

## Left out

- `sha256Hex` in `apps/worker/src/utils/crypto.ts` and every `TextEncoder`/`TextDecoder` call: the model works on byte and character sequences, and treats the UTF-8 encoding of the input as given.
- `btoa` of `generateToken` is defined here as the standard base64 of RFC 4648 section 4. `crypto.getRandomValues` becomes the 24 given bytes.
- Md5.Md5Hex: the limits on the size of a JavaScript typed array are not modelled; for every length the bit length is reduced modulo 2^32 as `>>> 0` does, and Md5.LengthFieldAt2To29 shows where that departs from RFC 1321.
- Withdrawal: the floating-point rounding of the LDC gross, fee and net amounts (`Math.round(... * 100) / 100`) is a parameter, the quote; amounts are exact reals and `Number(body.amount)` is given as an optional real together with the amount's text.
- Withdrawal.Create: assumes every database statement succeeds. Withdrawal.CreateWithFault covers one throwing `UPDATE` inside the `try` (the `completed` mark, the refund or the `failed` mark), and the Store methods do not. A throwing deduction or `INSERT` before the `try`, or a throwing statement inside the `catch`, escapes the handler and is not modelled.
- Withdrawal: `GET /orders` is a plain `SELECT ... LIMIT 20` and is not modelled.
- Proxy.Dispatch and PlaygroundRoute.Chat: the number of rounds is a natural number of at least 1; the NaN that `Math.max(1, Number(env))` gives for a non-numeric setting, which skips the loop, is not modelled.
- `createWeightedOrder` is not part of this model: the weighted order of the candidates is a parameter.
- `extractModels`, `extractModelPricings` and `collectUniqueModelIds` are not part of this model: their outputs are inputs. So the playground's `GET /models` (a sorted list from `collectUniqueModelIds`) is not modelled.
- `buildChannelRequest`, `convertResponse`, `recordUsage` and `utils/retry` are not part of this model: the upstream request is opaque, the usage record is returned as a value, and `isRetryableStatus` of `utils/retry` is taken to be the rule `proxy.ts` defines.
- The helpers of `services/channel-repo.ts` are not part of this model: `insertChannel`, `updateChannel` and `deleteChannel` are read as appending, rewriting and removing the rows with that id. Columns the admin routes never read or write are not represented.
- `safeJsonParse` is not part of this model: it is read as `JSON.parse` with the fallback for a null or malformed column.
- `fetchChannelModels` is a parameter, and `updateChannelTestResult` is not part of this model: the record the test route would write is returned.
- `extractHostname` and `cfSafeUrl` rely on the WHATWG URL parser and are not modelled; the hostname of a contributed base URL is an input.
- `Date.now()`, `nowIso()`, `crypto.randomUUID()` and `Math.random()` become parameters; latency measurement in the playground and the UI is not modelled.
- Request headers, URL building and authorization headers (`Bearer`, `Basic` with `btoa`) are not modelled.
- `ORDER BY` clauses are not modelled: every query returns rows in table order.
- JSON serialisation and the key order of response objects are not modelled; parsed bodies are datatypes and invalid JSON is `None`.
- UserChannels: the `rate_limit` and other column defaults of an inserted row are not modelled.
- UserChannels: deleting a contributed channel leaves its per-channel alias rows in place, as the source does.
- Withdrawal.RefusalMessage: a string is a sequence of Unicode characters, so the cut keeps 512 characters where `slice(0, 512)` keeps 512 UTF-16 code units; a text with characters outside the Basic Multilingual Plane is cut later here, and JavaScript can leave a lone surrogate at the cut.
- LdcReward.Pieces and LdcReward.InitialsRule: `w[0]` and `.slice(0, 2)` index UTF-16 code units, while the model takes whole characters; for a word starting with a character outside the Basic Multilingual Plane, JavaScript takes a lone surrogate.
- LdcReward.VerdictRule: `trade_no` is an optional string; a `trade_no` of another JSON type, which the callback would pass on as it is, is not modelled.
- AnthropicToOpenaiStream.TextDeltasInOrder: states the order for a body made only of text-delta lines; a body that mixes them with other lines is covered by composing it with SseLines.RunAppend, not by a lemma of its own.
- LdcReward.Upper: `toUpperCase` is modelled for ASCII letters only; other characters are kept as they are.
- LdcReward.SendRule: the request's `parseInt(userId)`, and its `Basic` authorization header are not modelled; the answer arrives as a status, a flag for a JSON content type (the header regex is not modelled) and an optionally parsed body.
- `GM_xmlhttpRequest`, `GM_setValue`/`GM_getValue`, the DOM, the dialogs, `MutationObserver` and the `setInterval` timing of the sweep are not modelled; the sweep is an operation called with the current time.
- The stream transforms' `TransformStream` plumbing, backpressure and concurrency are not modelled: each transform is a sequential step over string chunks plus a flush.
- `tokenAuth`, `userAuth` and `adminAuth` are not part of this model; the admin-auth bypass is modelled as the decision of which paths skip `adminAuth`.
- The JSX rendering and hooks of `PlaygroundView.tsx` are not modelled beyond the state `handleSend` sets.
