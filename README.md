# NodeBB posts: a Dafny model

This project models the post module of the NodeBB forum (`src/posts.js`). It covers:

- **Creation.** `create` validates the author and the topic lock, allocates a pid from `global.nextPid`, runs `filter:post.save`, writes the `post:<pid>` record and counts it in `global.postCount`. It then announces the post to the topic, category and user subsystems, builds the returned view through `filter:post.get` and the renderer, fires `action:post.save` and indexes the rendered content.
- **The field-level repository.** `getPostData`, `getPostFields`, `getPostField`, `setPostField` and `setPostFields`, each with its hook.
- **The batch reads.** `getPostsByPids` stamps ISO times and renders content. `getPostsByTid` and `getPostsByUid` range over a list and go through `filter:post.getTopic` and `action:post.gotTopic`. `getPostSummaryByPids` is a four-stage waterfall per pid inside a sequential pass. `getFavourites` applies it to a sorted set read newest first.
- **The author join.** `addUserInfoToPost` covers display fields with their defaults, the signature switch, the `filter:posts.custom_profile_info` hook and the editor's name and slug.
- **`getCidByPid`.**
- **Search re-indexing.** `reIndexPids`.
- **The two upload entry points.** `uploadPostImage` and `uploadPostFile`.

Files:

- `wrappers.dfy`: `Option` and `Result`.
- `js_values.dfy`: the JavaScript value semantics the code relies on. This covers `undefined` property reads, truthiness and `||`, `String(v)`, and `parseInt(v, 10)` as a left-to-right digit reader. It also gives the time-value range for which `Date.prototype.toISOString` does not throw, taken from section 21.4.1.1 of ECMA-262.
- `record_store.dfy`: the index conventions of the store's list and sorted-set range reads. Both ends are inclusive, and a negative index counts from the end.
- `posts.dfy`: the store and the operations. The store is the class `Posts.PostStore`. Its fields are what the module writes: the post records, the two `global` counters, the search index and a log of the notifications it sends. The topic, category and user records it only reads are the constant `peers`. Plugin hooks, the renderer, the signature setting and the default picture are the constant `env`.
- `uploads.dfy`: the upload decisions. The Imgur client, base64 decoding, `path.extname`, the file system and the upload URL are parameters.

Behaviours of the code that a reader might not expect, all of which the model follows:

- `getPostsByTid` and `getPostsByUid` pass the pids they read, not the output of `filter:post.getTopic`, to `getPostsByPids`. The hook's output only decides whether anything is returned.
- `create` increments `nextPid` before `filter:post.save` runs. A failing save filter therefore consumes a pid without writing a record.
- In `getPostsByPids`, a render failure leaves the post in the result with an `undefined` content. It does not produce an empty slot.
- In `getPostSummaryByPids`, errors of the author join are ignored. The summary fetch does not read `editor`, so the editor lookup always runs, on an `undefined` editor.

## Model

Some definitions are stated by the lemmas about them rather than by their own contract. The summary waterfall (`Waterfall`, `SummaryStep`) is stated by `WaterfallContinues`, `WaterfallEnds`, `SummaryStepOutcome` and the `SummaryStepKept` lemmas. The re-index result (`Reindexed`) is stated by `ReindexedAt`. The size test (`TooBig`) is stated by `SizeLimitOfNumeral`, `SizeLimitOfSetting` and `NoLimitWithoutNumber`.

| member | source | states |
|---|---|---|
| JsValues.OrDefault | src/posts.js:133-138 | the JavaScript `or` with a truthy default is truthy, and is the left operand when that is truthy, else the default |
| JsValues.ParseIntDecimal | src/posts.js:137 | `parseInt(String(n), 10)` is `n` for every integer `n` |
| JsValues.ParseIntOfString | src/posts.js:182 | `parseInt(v, 10)` on any value equals `parseInt` of its string conversion |
| JsValues.ParseIntSkipsWhiteSpace | src/posts.js:185 | leading white space (tab, vertical tab, form feed, byte-order mark, every Unicode space separator and the line terminators) does not change what a string parses to |
| JsValues.ParseIntOfSignedDigits | src/posts.js:397 | a digit run, bare, behind `+` or behind `-`, parses to its value (negated for `-`) whatever non-digit suffix follows |
| JsValues.ParseIntOfAbsent | src/posts.js:140 | `parseInt` of `undefined`, `null` and `""` is NaN |
| JsValues.NaturalStringValue | src/posts.js:137 | the decimal numeral of `n` reads back as `n` |
| RecordStore.ListRange | src/posts.js:92 | a range read returns the elements from the normalised start, in order, with the exact inclusive length |
| RecordStore.WholeRange | src/posts.js:469 | the range `0, -1` is the whole list |
| RecordStore.InclusiveRange | src/posts.js:92 | with plain indices the range includes both ends |
| RecordStore.EmptyRange | src/posts.js:97 | a range starting past the end, or ending before its start, is empty |
| RecordStore.Reverse | src/posts.js:469 | the reversed sequence has the same length, element `i` being element `n-1-i` of the input |
| RecordStore.WholeRevRange | src/posts.js:469 | the reverse range `0, -1` of a sorted set is the set from highest score to lowest |
| Posts.IsoTime | src/posts.js:185 | `toISOString` yields a time exactly when the parsed time is a number in the time-value range |
| Posts.CollectKeeps | src/posts.js:231-245 | the collected pids are a subsequence of the input, and each collected post is the one its pid's step kept |
| Posts.CollectSubsequence | src/posts.js:231-245 | the collected pids are a subsequence of the input |
| Posts.CollectMissesNothing | src/posts.js:231-245 | every pid whose step keeps a post is collected |
| Posts.CollectAborts | src/posts.js:231-245 | the pass fails exactly when some step aborts, and then with the error of the first abort |
| Posts.PostStore.IsLocked | src/posts.js:31-36 | the lock check reports an error exactly when the topic read fails |
| Posts.PostStore.FieldsPayloadShape | src/posts.js:264-272 | the object handed to `filter:post.getFields` holds `pid`, `fields` and exactly the requested fields the record has, with their stored values |
| Posts.PostStore.GetPostFieldsIdentity | src/posts.js:263-281 | with an identity `filter:post.getFields` hook, `getPostFields` delivers the payload: `pid`, `fields` and only requested fields with their stored values |
| Posts.PostStore.GetPostField | src/posts.js:283-291 | a hook error is passed on; with an identity hook the field reads back the stored value, or `pid`/`fields` as set by `getPostFields` |
| Posts.PostStore.GetPostData | src/posts.js:248-261 | with an identity hook, the whole record, or null for a missing one |
| Posts.PostStore.GetCidByPid | src/posts.js:341-359 | succeeds exactly when the tid and topic reads succeed with a truthy cid, an error of either read is passed on, and a falsy cid is `invalid-category-id` |
| Posts.PostStore.SetPostField | src/posts.js:293-300 | writes only that field of the record (creating it), fires `action:post.setField`, and the field then reads back |
| Posts.PostStore.SetPostFields | src/posts.js:302-304 | merges the object into the record (creating it), and every written field then reads back |
| Posts.PostStore.CreatedView | src/posts.js:68-78 | the returned view's content is a rendered string; with an identity `filter:post.get` hook the view is the written record with its content replaced by the rendered content, or the renderer's error |
| Posts.PostStore.Create | src/posts.js:26-89 | `invalid-user`, a lock-read error and `topic-locked` change nothing. Otherwise the pid is above every pid handed out, and a failing save filter writes nothing more. The record is written, counted and announced once, and the view is indexed and saved only on success |
| Posts.PostStore.Publish | src/posts.js:48-84 | the writes after allocation: the record merged in, the counter and the created set grown by the pid, and the announcements, then the `action:post.save` event and the index entry only when the view succeeds |
| Posts.PostStore.WriteRecord | src/posts.js:61-62 | the record is merged into `post:<pid>`, and the counter and the created set grow by the fresh pid, keeping the store invariant |
| Posts.PostStore.WithTimes | src/posts.js:317-322 | a post time out of range leaves the post as it was. Otherwise `relativeTime` is its ISO time, and `relativeEditTime` is one of three things: `''` for `edited` 0, the ISO time of an in-range `edited`, or unset when that throws. Every other property is kept |
| Posts.PostStore.PostView | src/posts.js:314-330 | null exactly for a missing record. Otherwise the stored properties and the rendered content (`undefined` when rendering fails), with every other property as the time stamps leave it |
| Posts.PostStore.GetPostsByPids | src/posts.js:306-339 | one entry per pid, in order, each the pid's view, null exactly for missing records |
| Posts.PostStore.GetPostsByTid | src/posts.js:91-120 | an empty range or an empty hook output gives `[]`, and a hook error is passed on. Otherwise the views of the listed pids, with one `action:post.gotTopic` event |
| Posts.PostStore.TopicPostIdsRange | src/posts.js:92 | the pids read are a window of the topic's list, in list order, and `0, -1` reads the whole list |
| Posts.PostStore.GetPostsByUid | src/posts.js:416-441 | a read error is passed on, and an empty list or hook output gives `[]`. Otherwise the views of the user's pids, with one `action:post.gotTopic` event |
| Posts.PostStore.UserPostIdsRange | src/posts.js:417 | the read fails exactly for a failing user; otherwise the pids are a window of the user's list, in order, and `0, -1` reads the whole list |
| Posts.PostStore.AuthorFields | src/posts.js:133-142 | each display field is the user's value or its default, `user_banned` is whether `banned` parses to 1, and the signature is set only where signatures are enabled |
| Posts.PostStore.EditorFields | src/posts.js:156-168 | an empty editor changes nothing, a failing editor read is an error, and otherwise the editor's username and slug are joined |
| Posts.PostStore.AuthorStage | src/posts.js:123-142 | a failed user read or signature render ends the join unchanged with an error; otherwise the author's display fields are written |
| Posts.PostStore.ProfileStage | src/posts.js:150-154 | the stage fails exactly when the hook called with `{profile: '', uid, pid}` fails, with its error, and then writes nothing. On success only `additional_profile_info` is written, with the hook output's `profile` |
| Posts.PostStore.AddUserInfoOutcome | src/posts.js:122-172 | the join fails with the error of the first failing callback: user read, signature render, profile hook, then the editor read of a non-empty editor; otherwise it succeeds |
| Posts.PostStore.AddUserInfoAfterAuthor | src/posts.js:150-168 | after the author stage, the join writes no property but the profile information and the editor's fields |
| Posts.PostStore.AuthorFailure | src/posts.js:123-131 | a failed user read or signature render ends the join before it writes anything |
| Posts.PostStore.AuthorDefaults | src/posts.js:133-138 | a readable author's display fields with their defaults; username and picture are always truthy |
| Posts.PostStore.AuthorSignature | src/posts.js:140-142 | the rendered signature is attached exactly where signatures are enabled; otherwise the post's own is kept |
| Posts.PostStore.EditorJoin | src/posts.js:156-168 | the editor's name and slug are joined only for a post with a non-empty editor |
| Posts.PostStore.AddUserInfoPreserves | src/posts.js:122-172 | the join writes no property outside the joined ones |
| Posts.PostStore.AddUserInfoKeeps | src/posts.js:122-172 | a property outside the joined ones reads the same after the join |
| Posts.PostStore.AuthorFieldsPreserve | src/posts.js:133-142 | the author fields write only joined properties |
| Posts.PostStore.EditorFieldsPreserve | src/posts.js:162-163 | the editor fields write only joined properties |
| Posts.PostStore.EditorFieldsKeeps | src/posts.js:162-163 | any property other than the editor's name and slug reads the same after the editor join |
| Posts.PostStore.PlaceFields | src/posts.js:202-208 | the summary gets the category's name, icon and slug, the escaped topic title and the topic slug, and keeps its content |
| Posts.PostStore.PlaceFieldsPreserve | src/posts.js:202-208 | the topic stage writes no property but those five display fields |
| Posts.PostStore.PlaceFieldsKeeps | src/posts.js:202-208 | any other property reads the same after the topic stage |
| Posts.PostStore.SummaryContent | src/posts.js:212-230 | a falsy content is kept as is; a truthy one is rendered (and stripped on request), or its render error aborts |
| Posts.PostStore.SummaryContentKeeps | src/posts.js:212-230 | the last stage writes no property but the content |
| Posts.PostStore.FetchStageOutcome | src/posts.js:180-188 | a failed fetch aborts as a TypeError, and a deleted post is dropped. A time out of range aborts as a RangeError. Otherwise the fetched fields go on stamped with the ISO time of `timestamp \|\| 0` |
| Posts.PostStore.FetchStageStamps | src/posts.js:185 | a kept fetch carries the ISO time of an in-range `timestamp \|\| 0` |
| Posts.PostStore.TopicStageOutcome | src/posts.js:195-211 | a failed topic read aborts, and a post of a deleted topic is dropped. Otherwise the stage keeps every property but the five display fields, and sets the escaped title |
| Posts.PostStore.WaterfallContinues | src/posts.js:178-237 | a stage that hands on a post continues the waterfall with the rest of the stages |
| Posts.PostStore.WaterfallEnds | src/posts.js:178-237 | a stage that drops the post or fails ends the waterfall with its outcome |
| Posts.PostStore.SummaryJoinsAuthor | src/posts.js:190-193 | after a kept fetch the summary continues with the author's fields joined |
| Posts.PostStore.SummaryAfterFetch | src/posts.js:180-193 | past a kept fetch, the post carrying the fetched `tid` and `content` enters the topic stage |
| Posts.PostStore.SummaryStepOutcome | src/posts.js:180-211 | a pid is dropped exactly when the post or its topic is deleted. A failed fetch, a time out of range and a failed topic read each abort the batch with their error |
| Posts.PostStore.SummaryStepKept | src/posts.js:196-230 | a kept summary belongs to a live post of a live topic. It carries the escaped title, the topic slug and the category's name, icon and slug. Its content is rendered (and stripped on request) when truthy and left as fetched otherwise |
| Posts.PostStore.SummaryKeptFrom | src/posts.js:178-237 | a kept summary is the content stage applied to the fetched post, joined with its author and its live topic |
| Posts.PostStore.SummaryStepKeptTime | src/posts.js:185 | a kept summary carries the ISO time of its in-range `timestamp \|\| 0` |
| Posts.PostStore.SummaryStepKeptJoins | src/posts.js:190-193 | a kept summary carries every property the author join wrote |
| Posts.PostStore.KeptJoinKey | src/posts.js:196-230 | a joined property passes the topic and content stages unchanged |
| Posts.PostStore.Steps | src/posts.js:239 | the per-pid outcomes, one per pid in order |
| Posts.PostStore.SummaryRunUnfold | src/posts.js:239-245 | the pass begins with the first pid's step |
| Posts.PostStore.SummaryKeepsSubsequence | src/posts.js:231-245 | the summarised pids are a subsequence of the input, each with the post its step keeps |
| Posts.PostStore.SummaryOmitsExactly | src/posts.js:231-245 | an input pid is summarised exactly when its step keeps it |
| Posts.PostStore.SummaryAbortsExactly | src/posts.js:239-245 | the batch fails exactly when some step aborts, with the first such error |
| Posts.PostStore.SummariesKept | src/posts.js:231-245 | the delivered summaries are at most one per input pid, each the post some pid's step keeps |
| Posts.PostStore.GetPostSummaryByPids | src/posts.js:174-246 | the result is the summaries of the sequential pass, or its first error |
| Posts.PostStore.FavouritePids | src/posts.js:469 | the favourites in order from highest score to lowest |
| Posts.PostStore.GetFavourites | src/posts.js:468-481 | the markup-kept summaries of the favourites, newest first |
| Posts.PostStore.IndexedContent | src/posts.js:448-451 | the content is indexed exactly when it is read without error and is non-empty |
| Posts.PostStore.ReindexOne | src/posts.js:446-457 | one re-index gives the pid exactly the entry of its non-empty content, or none, and leaves every other pid's entries alone |
| Posts.PostStore.ReindexedAt | src/posts.js:444-466 | after re-indexing, a listed pid has exactly its non-empty content as its one entry (or none), and other pids keep their entries |
| Posts.PostStore.ReindexIdempotent | src/posts.js:444-466 | re-indexing twice leaves the index as re-indexing once |
| Posts.PostStore.ReIndexPids | src/posts.js:444-466 | the index after the pass, entry by entry as above, and the reply `Posts reindexed` |
| PostUploads.UploadPostFile | src/posts.js:385-414 | disabled uploads, a missing file and an oversized file are refused with their messages. A success passed every check, wrote the file and reports the upload URL and the original name. Otherwise the file system's error is reported |
| PostUploads.UploadPostImage | src/posts.js:361-383 | with an Imgur client id, a missing image is refused and otherwise Imgur's link or error is reported. Without one, it is a file upload when those are allowed, and otherwise `Uploads are disabled!` |
| PostUploads.Store | src/posts.js:401-413 | the local upload succeeds exactly when the file is written under `upload-<uuid><extension>`; it then reports the upload URL of that name and the original name, and otherwise the write error |
| PostUploads.SizeLimitOfNumeral | src/posts.js:397 | with a numeric maximum of `n` KiB, a file is too big exactly when it has more than `n * 1024` bytes |
| PostUploads.SizeLimitOfSetting | src/posts.js:397 | a maximum with white space before its digits or a non-digit unit after them, such as `10kb`, limits like its leading number |
| PostUploads.NoLimitWithoutNumber | src/posts.js:397 | a maximum that is unset, empty or a word sets no limit |
| PostUploads.ImgurBypassesDisk | src/posts.js:363-377 | with an Imgur client id, the outcome does not depend on the disk |

## Left out

- I/O, clocks and randomness are not modelled as such. `Date.now()` is the `timestamp` argument of `create`, and `utils.generateUUID()` is the `uuid` argument of the uploads. `gravatar.url` is the constant default picture, and the `winston` log line is dropped.
- The database, the plugin system and the collaborators are modelled on values. Reads of `post:<pid>` records and of the list and sorted-set keys always succeed. Read errors are modelled only for topics and users, through `peers.failingTopics` and `peers.failingUsers`. Category reads never fail: the crash on an undefined category record is not captured.
- Store writes never fail in the model. The error of `incrObjectField('global', 'nextPid')` in `create` is not modelled. Neither is the write error that `setPostField` and `setPostFields` hand to their callbacks. The same holds for the unchecked writes (`setObject`, the `postCount` increment, `searchIndex`, `searchRemove`).
- The topic, category and user reactions to a new post (`onNewPostMade`) are only recorded in the event log, in order. What those subsystems then write is not part of this model.
- Posts.PostStore.AddUserInfo: the join mutates the post object in place. The model returns the decorated object, so aliasing between the caller's object and the callbacks' writes is not captured. The `customUserInfo` loop is omitted because nothing in the module ever registers an entry, so the loop never runs.
- Posts.PostStore.GetPostData: its result is stated only for an identity `filter:post.get` hook. For any other hook the result is the hook's output, which is a parameter.
- Posts.PostStore.CreatedView: the view is stated in full only for an identity `filter:post.get` hook. For any other hook it is that hook's output with its content rendered.
- Posts.PostStore.GetPostFieldsIdentity: `getPostFields` is stated only for an identity `filter:post.getFields` hook; for any other hook it is the hook's output.
- Posts.PostStore.GetPostField: its value is stated only for an identity `filter:post.getFields` hook; for any other hook it is whatever the hook returns.
- Posts.PostStore.ReIndexPids: `async.each` runs the re-index of all pids concurrently, and the model runs them in list order. With a pid listed twice, concurrent removes and adds could leave that pid with two entries; this is not captured.
- In `getPostSummaryByPids`, a missing `postData` after a failed `getPostFields` throws a TypeError. This is modelled as the batch failing with `TypeFault`. An uncaught `toISOString` RangeError is modelled as a `RangeFault` batch failure.
- PostUploads.UploadPostFile: base64 decoding (`new Buffer(data, 'base64')`), `path.extname`, `path.join` plus `fs.writeFile`, and `nconf.get('upload_url')` are parameters. A file object without `data`, which would throw, is not modelled.
- JavaScript numbers are unbounded integers here. Fractional and floating-point values, and `parseInt`'s loss of precision on very long digit runs, are left out.
