# Gita reflection server: a Dafny model of its core

This project models the server core of a chat application that leads a user
through a reflection and shows verses (shlokas) of the Bhagavad Gita:

- the in-memory store `MemStorage` of `server/storage.ts`: chapters and
  shlokas seeded once, conversations kept by session id, auto-increment id
  counters, lookup, filter by chapter, case-insensitive search,
  create-or-replace and a merge-update that fails for an unknown session;
- the alternate store of `server/storage-new.ts`, whose verses (`shloks`)
  have nullable columns and are grouped by chapter number;
- the request handlers of `server/routes.ts` that change or read the store:
  create-or-get a conversation, one chat turn with the language model's reply
  as an input, and a verse with its chapter;
- the two connection-string rewrites, `fixSupabaseConnectionString`
  (`server/database.ts`) and `encodeConnectionString` (`server/init-db.ts`).

Modules, one per source file plus shared helpers:

| file | module | models |
|---|---|---|
| wrappers.dfy | Wrappers | `Option` and `Result` |
| text.dfy | Text | ASCII `toLowerCase`, `includes`, a global literal `replace` and its occurrence count |
| seqs.dfy | Seqs | `Array.prototype.filter`, and the insertion-ordered values of a `Map` |
| schema.dfy | Schema | the `Chapter` and `Message` shapes |
| storage.dfy | Storage | `server/storage.ts` |
| storage_new.dfy | StorageNew | `server/storage-new.ts` |
| routes.dfy | Routes | the three handlers of `server/routes.ts` |
| database.dfy | Database | `fixSupabaseConnectionString` |
| init_db.dfy | InitDb | `encodeConnectionString` |

Each store is a `class` whose fields are the three `Map`s and the three
counters. A JavaScript `Map` lists its values in insertion order, so each map
whose values are listed has a key sequence beside it. The seeded chapters and
verses are never written after construction, and `Valid()` records their
shape. Methods change only the fields their `modifies` clauses name. A thrown
error is an `Err` result, and an `undefined` or `null` value is `None`.

The chat turn is an imperative method, `Routes.PostMessage`. It is proved
equal to a reference function, `Routes.Turn`, which gives the answer and the
conversations left in the store. The lemmas about the turn are stated about
`Turn`. The language-model call is a function parameter. It receives the
role-mapped history and returns either the parsed reply or a failure.

Where the client and the server check different things, the model follows
the server:

- Progress. The progress bar clamps the figure to the range 0 to 100, but
  only to draw it (`client/src/components/progress-bar.tsx:14`), and the
  prompt asks the model for a number from 0 to 100 (`server/routes.ts:89`).
  The handler stores the model's non-zero figure as it comes
  (`server/routes.ts:130`), and `Routes.NextProgressUnclamped` shows 250 and
  -5 passing through.
- Blank messages. The reflection page's text box trims its input and sends
  nothing blank (`client/src/pages/reflection.tsx:72` and `:240`); a clicked
  option is sent as it is (`client/src/pages/reflection.tsx:77-78`). The handler rejects only a
  falsy message (`server/routes.ts:56`), so a message of spaces is accepted,
  and `Routes.MessageGiven` accepts it too.
- Reply shape. The response schema lists `message`, `options`,
  `progressPercentage` and `shouldShowShloka` as required
  (`server/routes.ts:99-109`), but the handler uses whatever object
  `JSON.parse` returns (`server/routes.ts:116`), so every field of
  `Routes.AiReply` is optional.

## Model

| member | source | states |
|---|---|---|
| Storage.MemStorage.constructor | server/storage.ts:27-30 | a new store holds exactly the two seed chapters and the two seed shlokas, no conversations, and its conversation counter is 1 |
| Storage.MemStorage.SeedData | server/storage.ts:32-115 | seeding yields chapters 1 and 2 under ids 1 and 2 and verses 47 and 20 of chapter id 2 under ids 1 and 2, inserted in that order; both counters end at 3 |
| Storage.MemStorage.SeedChapterData | server/storage.ts:33-49 | each chapter takes the next chapter id; the second chapter's id, 2, is what the verses refer to |
| Storage.MemStorage.SeedShlokaData | server/storage.ts:51-114 | each verse takes the next shloka id, both carry the second chapter's id, and they are inserted in order |
| Storage.MemStorage.GetChapter | server/storage.ts:117-119 | the chapter stored under the id, and nothing exactly when the id is not 1 or 2 |
| Storage.MemStorage.GetAllChapters | server/storage.ts:121-123 | every stored chapter once, in insertion order, which is chapter-number order |
| Storage.MemStorage.GetShloka | server/storage.ts:125-127 | the shloka stored under the id, and nothing exactly when the id is not 1 or 2 |
| Storage.MemStorage.ShlokaList | server/storage.ts:130 | `Array.from(shlokas.values())` holds every stored shloka once, in insertion order |
| Seqs.FilterMultiset | server/storage.ts:135 | `filter` keeps every copy of a passing element and no copy of a failing one |
| Storage.ByChapter | server/storage.ts:130 | keeps exactly the shlokas with that chapter id, in their order |
| Storage.ByChapterUniform | server/storage.ts:129-131 | when every shloka has chapter id `k`, asking for `k` gives all of them and any other id none |
| Storage.MemStorage.GetShlokasByChapter | server/storage.ts:129-131 | exactly the stored shlokas of that chapter id, in insertion order: both for id 2, none otherwise |
| Storage.Search | server/storage.ts:133-140 | keeps, in order, exactly the shlokas whose lower-cased translation, purport (when present) or transliteration contains the lower-cased query |
| Storage.SearchEmptyQuery | server/storage.ts:133-140 | the empty query returns every shloka |
| Storage.MatchesTerm | server/storage.ts:135-139 | a shloka matches a lower-cased term when its lower-cased translation, its purport if there is one, or its transliteration contains the term |
| Storage.Shloka1TranslationMissesSoul | server/storage.ts:58 | the translation of verse 47 does not contain "soul" in any case |
| Storage.Shloka1PurportMissesSoul | server/storage.ts:59 | the purport of verse 47 does not contain "soul" in any case |
| Storage.Shloka1TransliterationMissesSoul | server/storage.ts:57 | the transliteration of verse 47 does not contain "soul" in any case |
| Storage.Shloka1MissesSoul | server/storage.ts:57-59 | verse 47 does not match "soul", whatever its ids |
| Storage.Shloka2TranslationMissesKarma | server/storage.ts:86 | the translation of verse 20 does not contain "karma" in any case |
| Storage.Shloka2PurportMissesKarma | server/storage.ts:87 | the purport of verse 20 does not contain "karma" in any case |
| Storage.Shloka2TransliterationMissesKarma | server/storage.ts:85 | the transliteration of verse 20 does not contain "karma" in any case |
| Storage.Shloka2MissesKarma | server/storage.ts:85-87 | verse 20 does not match "karma", whatever its ids |
| Storage.SeedSearchKarma | server/storage.ts:133-140 | over the seeded verses, "karma" finds exactly verse 47 |
| Storage.SeedSearchSoul | server/storage.ts:133-140 | over the seeded verses, "soul" finds exactly verse 20 |
| Storage.MemStorage.SearchShlokas | server/storage.ts:133-140 | exactly the stored shlokas that match the query, in insertion order |
| Storage.OrZero | server/storage.ts:147-148 | the falsy default for the step and the progress is 0 exactly when the value is missing or 0, and otherwise the value itself |
| Storage.OrNull | server/storage.ts:149 | the falsy default for the verse id is null exactly when the id is missing or 0, and otherwise the id itself |
| Storage.NewConversation | server/storage.ts:143-151 | the new record copies the session, messages and time; a falsy step or progress becomes 0 and a falsy verse id becomes null, and a truthy one is kept |
| Storage.MemStorage.CreateConversation | server/storage.ts:142-154 | the record takes the current counter as its id, the counter advances by one, and the record replaces whatever the session held |
| Storage.MemStorage.GetConversation | server/storage.ts:156-158 | the record stored for the session, or nothing when there is none |
| Storage.Merge | server/storage.ts:166 | each field the update carries replaces the stored one, every other field is kept |
| Storage.MergeNoChanges | server/storage.ts:166 | an update without keys changes nothing |
| Storage.MergeIdempotent | server/storage.ts:166 | applying an update twice equals applying it once |
| Storage.MemStorage.UpdateConversation | server/storage.ts:160-169 | an unknown session gives the "Conversation not found" error and no change; otherwise the merged record is stored and returned and the other sessions are untouched |
| StorageNew.MemStorage.constructor | server/storage-new.ts:28-31 | a new store holds exactly the two seed chapters and the three seed shloks, each stamped with its own time, and no conversations |
| StorageNew.MemStorage.SeedData | server/storage-new.ts:33-95 | chapters 1 and 2 under ids 1 and 2, and verses 47, 20 and 13 of chapter number 2 under ids 1 to 3, in insertion order |
| StorageNew.MemStorage.SeedChapterData | server/storage-new.ts:34-50 | each chapter takes the next chapter id |
| StorageNew.MemStorage.SeedShlokData | server/storage-new.ts:52-94 | each verse takes the next shlok id; all three carry chapter number 2 |
| StorageNew.MemStorage.ShlokList | server/storage-new.ts:110 | `Array.from(shloks.values())` holds every stored shlok once, in insertion order |
| StorageNew.ByChapterNumber | server/storage-new.ts:110 | keeps exactly the shloks whose chapter-number column equals the number, in their order |
| StorageNew.ByChapterNumberUniform | server/storage-new.ts:109-111 | when every shlok has chapter number `k`, asking for `k` gives all of them and any other number none |
| StorageNew.MemStorage.GetShloksByChapter | server/storage-new.ts:109-111 | filters on the chapter number, not a chapter id: all three seeded verses for 2, none otherwise, in insertion order |
| StorageNew.MatchesTerm | server/storage-new.ts:115-120 | a shlok matches a lower-cased term when its sanskrit, translation, explanation or tags, each only when present, contain the term once lower-cased |
| StorageNew.Search | server/storage-new.ts:113-121 | keeps, in order, exactly the shloks whose sanskrit, translation, explanation or tags contain the lower-cased query |
| StorageNew.SearchSkipsEmptyShlok | server/storage-new.ts:116-119 | a shlok whose four searched columns are null matches no query, not even the empty one |
| StorageNew.SearchKeepsOrder | server/storage-new.ts:115 | two matching shloks come back in store order |
| StorageNew.Shlok2MatchesSoul | server/storage-new.ts:74 | the tags of verse 20 contain "soul" |
| StorageNew.Shlok3MatchesSoul | server/storage-new.ts:87 | the tags of verse 13 contain "soul" |
| StorageNew.Shlok1SanskritMissesSoul | server/storage-new.ts:57 | the sanskrit of verse 47 does not contain "soul" in any case |
| StorageNew.Shlok1TagsMissSoul | server/storage-new.ts:61 | the tags of verse 47 do not contain "soul" in any case |
| StorageNew.Shlok1MissesSoul | server/storage-new.ts:57-61 | verse 47 does not match "soul" in any of its four searched columns |
| StorageNew.SeedSearchSoul | server/storage-new.ts:113-121 | over the seeded verses, "soul" finds exactly verse 20 and, after it, verse 13 |
| StorageNew.MemStorage.SearchShloks | server/storage-new.ts:113-121 | exactly the stored shloks that match the query, in insertion order |
| StorageNew.NewConversation | server/storage-new.ts:124-128 | every insert field is copied as it is, except that a falsy verse id becomes null |
| StorageNew.MemStorage.CreateConversation | server/storage-new.ts:123-132 | the record takes the current counter as its id, the counter advances, and the record replaces whatever the session held |
| StorageNew.MemStorage.GetConversation | server/storage-new.ts:134-136 | the record stored for the session, or nothing |
| StorageNew.Merge | server/storage-new.ts:144 | each carried field replaces the stored one, `null` included; the others are kept |
| StorageNew.MergeIdempotent | server/storage-new.ts:144 | applying an update twice equals applying it once |
| StorageNew.MemStorage.UpdateConversation | server/storage-new.ts:138-147 | an unknown session gives the error and no change; otherwise the merged record is stored and returned and the other sessions are untouched |
| Routes.CreateOrGetConversation | server/routes.ts:11-28 | a known session returns its record and writes nothing; an unknown one gets a new record with no messages, step 0, progress 0 and no verse, stored under the session with the next id |
| Routes.CreateOrGetTwice | server/routes.ts:11-28 | create-or-get is idempotent: a second call returns the first call's record, and the store holds it |
| Routes.ModelContents | server/routes.ts:112 | the model sees one entry per message, in order, with the message's text; `user` stays `user` and `assistant` becomes `model` |
| Routes.ModelContentsAppend | server/routes.ts:112 | mapping a history with one more message appends that message's entry |
| Routes.TurnModelInput | server/routes.ts:66-72 | the model input is the stored history's entries followed by the new user message |
| Routes.NextProgress | server/routes.ts:130 | a non-zero reported figure is taken as it is; otherwise progress is `min(100, previous + 20)` |
| Routes.NextProgressUnclamped | server/routes.ts:130 | reported figures such as 250 and -5 pass through unclamped |
| Routes.ProgressWithoutReportsIs | server/routes.ts:130 | `k` turns without a reported figure give `min(100, previous + 20k)` |
| Routes.FiveTurnsComplete | server/routes.ts:130 | five such turns take a new conversation from 0 to 100 |
| Routes.MessageGiven | server/routes.ts:56 | defines the accepted message: present and not empty; a message of spaces passes |
| Routes.WantsShloka | server/routes.ts:135 | defines when a verse is wanted: `shouldShowShloka` is `true` and the query is present and not empty |
| Routes.Resolve | server/routes.ts:133-143 | a verse is shown exactly when the reply asks for one with a non-empty query and the search finds something; it is a stored verse matching the query |
| Routes.ResolveIsFirstMatch | server/routes.ts:136-138 | the shown verse is the first matching one in store order |
| Routes.Body | server/routes.ts:147-151 | the answer's message is the reply's, its options default to `[]`, and it shows a verse only when the reply says `true` |
| Routes.TurnUpdate | server/routes.ts:127-131 | defines the first write: the history with the assistant's message appended, the next step and the next progress; the lemmas below state its effect |
| Routes.Turn | server/routes.ts:51-159 | defines the turn's answer and the conversations it leaves; its properties are the `Turn...` lemmas and `Routes.PostMessage` |
| Routes.TurnFailureWritesNothing | server/routes.ts:56-127 | a missing message gives 400 and an unknown session 404, and every failed turn leaves the conversations as they were |
| Routes.TurnSuccessAppendsTwo | server/routes.ts:118-131 | a successful turn stores the old messages followed by exactly the user's message and the assistant's reply, advances the step by one, sets progress to `NextProgress` of the old figure and the reported one, keeps the verse selection and the identity fields, and answers with the reply's body |
| Routes.TurnStoresSnapshotAndVerse | server/routes.ts:127-146 | only the turn's session changes; it holds the answer's record, with the resolved verse selected when there is one, so the answer predates that write |
| Routes.TurnVerseNeedsRequest | server/routes.ts:133-150 | the answer's verse is exactly `Resolve` of the reply: present exactly when the model asked for a verse with a non-empty query and the search finds one, and then it is a stored verse and the answer says to show it |
| Routes.PostMessage | server/routes.ts:51-159 | the handler's answer and the conversations it leaves are exactly those of `Turn` |
| Routes.ShowRelevantShloka | server/routes.ts:133-143 | the verse step shows the resolved verse and writes only its id into the session, or writes nothing |
| Routes.GetShlokaWithChapter | server/routes.ts:162-180 | an id that is not a number or not stored gives 404; otherwise the shloka comes with the chapter its chapter id names, which exists and is chapter 2 |
| Database.FixConnectionString | server/database.ts:8-25 | the result is empty exactly when the input is, and a non-empty result starts with `postgresql://` or `postgres://` |
| Database.EscapeStars | server/database.ts:14 | defines the first pass: a `*` not directly followed by `%` becomes `%2A`; its properties are the lemmas below |
| Database.EscapeBarePercentU | server/database.ts:15 | defines the second pass: a `%U` not followed by two hexadecimal digits becomes `%25U`; its properties are the lemmas below |
| Database.HostRewriteIsIdentity | server/database.ts:16 | the host-name rewrite changes nothing |
| Database.EscapeStarsGuards | server/database.ts:14 | after the first pass every `*` is followed by `%` |
| Database.EscapeStarsFixedIff | server/database.ts:14 | the first pass leaves a string unchanged exactly when every `*` in it is followed by `%` |
| Database.EscapeStarsIdempotent | server/database.ts:14 | running the first pass twice equals running it once |
| Database.EscapeStarsPrefix | server/database.ts:14 | text without `*` is copied unchanged by the first pass |
| Database.EscapeBarePercentUHead | server/database.ts:15 | a first character other than `%` is copied by the second pass |
| Database.EscapeBarePercentUFirst | server/database.ts:15 | the second pass's output starts with `%` exactly when its input does |
| Database.EscapeBarePercentUGuards | server/database.ts:15 | after the second pass every `%U` is followed by two hexadecimal digits |
| Database.EscapeBarePercentUPrefix | server/database.ts:15 | text without `%` is copied unchanged by the second pass |
| Database.EscapeBarePercentUFixedIff | server/database.ts:15 | the second pass leaves a string unchanged exactly when every `%U` in it is followed by two hexadecimal digits |
| Database.EscapeBarePercentUIdempotent | server/database.ts:15 | running the second pass twice equals running it once |
| Database.GuardedPercentUKept | server/database.ts:15 | a `%U` followed by two hexadecimal digits is copied with its digits, and the text after them is escaped as before |
| Database.EscapeBarePercentUKeepsStarsGuarded | server/database.ts:14-15 | the second pass keeps the first pass's guarantee about `*` |
| Database.PrefixKeepsGuards | server/database.ts:19-21 | the added scheme keeps both guarantees |
| Database.FixedStringIsGuarded | server/database.ts:13-21 | in the result every `*` is followed by `%` and every `%U` by two hexadecimal digits |
| Database.FixKeepsGivenScheme | server/database.ts:19-21 | an input that starts with a scheme keeps it and gets no second one |
| Database.FixAddsScheme | server/database.ts:19-21 | when the escaped string names no scheme, `postgresql://` is put in front of it |
| Database.FixPlainString | server/database.ts:13-21 | a string without `*` and `%` is copied unchanged, behind `postgresql://` when it has no scheme |
| Database.EscapeStarsAppend | server/database.ts:14 | the first pass escapes two texts separately unless the join puts a `*` directly before a `%` |
| Database.StarBeforePercentKept | server/database.ts:14 | a `*` directly before `%`, anywhere in the text, is kept as it is and the text on either side is escaped as before |
| Database.StarBeforePercentExample | server/database.ts:10-21 | the example `postgres://a*%40` comes back unchanged |
| Database.FixExample | server/database.ts:10-21 | a bare `*` and a `%U` without digits after it are both escaped, and the scheme is added |
| InitDb.Encode | server/init-db.ts:4-6 | the encoded string contains no `*` and no `%U` |
| InitDb.EncodeEmpty | server/init-db.ts:4-6 | the empty string is encoded as itself |
| InitDb.ReplaceAllRemovesChar | server/init-db.ts:5 | replacing a character by a text without it removes every occurrence |
| InitDb.EncodePercentUFirst | server/init-db.ts:5 | the second pass keeps its input's first character |
| InitDb.EncodePercentUClears | server/init-db.ts:5 | the second pass leaves no `%U` |
| InitDb.NoPercentUNoOccurrences | server/init-db.ts:5 | a string without a `%U` pair has nothing for the second pass to replace |
| InitDb.EncodeStarsKeepsPercentU | server/init-db.ts:5 | the first pass neither creates nor destroys a `%U` |
| InitDb.EncodeLength | server/init-db.ts:5 | the output is two characters longer than the input for each `*` and each `%U` |
| InitDb.EncodeUnchanged | server/init-db.ts:5 | a string with neither `*` nor `%U` is returned unchanged |
| InitDb.EncodeIdempotent | server/init-db.ts:4-6 | encoding an encoded string changes nothing more |

## Left out

- The Gemini call, its prompt and its response schema are not modelled. The call is a function parameter that returns the parsed reply or a failure, and a network error and a `JSON.parse` error are the same failure.
- Express request and response plumbing is not modelled; status codes are variants of the answer datatypes.
- `GET /api/conversations/:sessionId`, `GET /api/chapters` and `POST /api/tts` are not modelled. The first two only pass a store result through, and the last only echoes its input.
- Database storage (`DatabaseStorage`, `initializeDatabase`) and the fallback from the database to the memory store in `initializeStorage` are not modelled; they are remote I/O.
- `getChapter`, `getAllChapters` and `getShlok` of server/storage-new.ts are not modelled; they are the same map reads as in server/storage.ts.
- Times from `new Date().toISOString()` are string parameters.
- `toLowerCase` folds only the ASCII letters A to Z. Case folding of other scripts, such as Devanagari, is not modelled.
- Requests are sequential. Interleaving of concurrent requests between the read and the write of a turn is not modelled.
- `parseInt` is an optional integer parameter: `None` stands for a string that is not a number.
- A `sessionId` missing from the request body is not modelled; the session id is always a string.
- JSON values of other types than the declared ones are not modelled, such as a string `shouldShowShloka` or a fractional `progressPercentage`.
- Logging with `console.log` is not modelled.
- Seeding is split into a chapter method and a verse method. This keeps each proof small, and the two methods run the source's statements in its order.
