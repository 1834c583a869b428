# Tailchat ↔ AstrBot bridge, modelled in Dafny

The repository connects Tailchat, a chat server that delivers bot events as HTTP webhooks, to AstrBot, a
chat-bot framework. Several variants of the bridge live side by side:

- the multi-robot plugin `plugins/tailchat/tailchat` (utilities, a robot registry, one shared callback server);
- the multi-bot adapter `plugins/tailchat_adapter/tailchat_adapter` (adapter, router, callback server, HTTP
  client, utilities), wired together by `plugins/tailchat_adapter/__init__.py`;
- the older single-tenant adapter `plugins/tailchat_adapter/adapter.py` and `server.py`;
- the standalone AstrBot platform `tailchat_adapter` (payload parser, asynchronous HTTP client, callback
  server, platform and event classes).

All of them take a loosely typed JSON payload from Tailchat, decide whether it is a message addressed to the bot,
normalise it into an `IncomingMessage` (text, attachments, reply, session key, metadata), route it to AstrBot,
and send AstrBot's answers back through Tailchat's OpenAPI with a login token that is renewed once on a 401/403.

The model is one Dafny module per source file, and each variant is modelled as written. JSON is
`JsonModel.Json` (null, bool, int, string, array, object). Python truthiness, `a or b`, `str(x)` and `dict.get`
are functions of that module. Where Python raises (`.get` on a non-dict, `.strip()` on a non-string, iterating
an int, `str.format` with an unknown name, `int()` of junk) the model returns `Failure` with the exception kind.
Where two files hold the same code line for line, one member models both, and its row names both copies:

- the path walk of the `get_first_with_presence` copies;
- the extraction loops of the two adapters;
- `_download_attachments`;
- redaction;
- the two synchronous `TailchatAPI` copies — their `_build_url`, defaults and reply key are a `Variant` of one
  module.

Transport is a script of responses (`Http.Connection`), consumed one POST at a time. Hash functions,
the clock, uuids and the filesystem are parameters.

Modules (file → source):

- `json_model`, `wrappers`, `text`, `paths`, `template`: JSON values, results, Python string methods,
  dotted-path lookups, and `str.format`;
- `tailchat_utils`, `mention_text`, `redaction`, `extract`, `adapter_utils`: the two `utils.py` files and the
  adapters' extraction helpers;
- `adapter`, `legacy_adapter`, `download`: the two `convert_message`/`handle_incoming` flows and the
  attachment download pass;
- `parse`, `platform`, `event`: `parse_incoming`, the platform's `convert_message` and the event's `send`;
- `http`, `tailchat_api`, `standalone_api`: the HTTP oracle and the three `TailchatAPI` classes;
- `router`, `plugin_config`, `registry`: message routing, configuration and adapter wiring, and the robot
  registry;
- `callback`, `bot_server`, `plugin_server`, `standalone_server`, `singleton_server`: the request decision
  chains of the four callback servers.

Notes on behaviour:

- An unknown placeholder in a session-key template raises `KeyError`; it does not render as an empty string.
- Only `tailchat_adapter/server.py` checks the client address first and answers 403. The plugin servers check
  the token first and answer 401 for a foreign address too.
- `parse_incoming` accepts only the exact type `"message"` (or none); it does not lower-case the type.

## Model

| member | source | states |
|---|---|---|
| TailchatUtils.DeepGet | plugins/tailchat/tailchat/utils.py:22-29 | the loop returns the value at the dotted path, and Null as soon as a step is missing or the current value is not a dict (`Paths.Walk`) |
| TailchatUtils.GetFirstWithPresence | plugins/tailchat/tailchat/utils.py:37-49 | the nested loops return the first candidate whose path fully resolves, with presence true even for null or "", and (Null, false) when none resolves |
| TailchatUtils.GetFirst | plugins/tailchat/tailchat/utils.py:32-34 | the default exactly when no candidate is present; a present null is returned, not the default |
| TailchatUtils.ConfigGet | plugins/tailchat/tailchat/utils.py:52-61 | the loop returns the looked-up value unless some step gives None (then the default); False and 0 are returned unchanged |
| TailchatUtils.GenCallbackPath | plugins/tailchat/tailchat/utils.py:64-65 | the path is the fixed prefix followed by exactly the robot id |
| TailchatUtils.GenCallbackPathInjective | plugins/tailchat/tailchat/utils.py:64-65 | different robot ids give different callback paths |
| TailchatUtils.StripMentionText | plugins/tailchat/tailchat/utils.py:68-73 | empty text is returned as it is; otherwise the result has no leading, trailing, doubled or non-space whitespace, and no '@' followed by a non-space character |
| TailchatUtils.StripKeepsPlainText | plugins/tailchat/tailchat/utils.py:68-73 | text without '@' is kept word for word, only its whitespace collapsed |
| TailchatUtils.StripReplacesOneMention | plugins/tailchat/tailchat/utils.py:72-73 | one `@name` mention in plain text becomes a space; the text before and after it is kept, whitespace collapsed |
| TailchatUtils.ExtractMentions | plugins/tailchat/tailchat/utils.py:149-166 | the loop keeps string items and the truthy `_id`/`id`/`userId` of dict items, in order; an absent or falsy field gives []; presence is reported |
| TailchatUtils.ExtractAttachments | plugins/tailchat/tailchat/utils.py:169-193 | one attachment per dict item, in order; a truthy value that is not iterable raises TypeError |
| TailchatUtils.ExtractReply | plugins/tailchat/tailchat/utils.py:196-206 | Some exactly when the first present reply path holds a dict; its messageId is the first present of `_id` and `messageId` in it |
| TailchatUtils.Metadata | plugins/tailchat/tailchat/utils.py:141-145 | exactly the keys event_type, mentions_present and robot_id, with those values |
| TailchatUtils.TextOf | plugins/tailchat/tailchat/utils.py:128 | the content (or "" when falsy), stripped of mentions: normally spaced |
| TailchatUtils.Assemble | plugins/tailchat/tailchat/utils.py:117-146 | succeeds exactly when the attachments and the session-key format succeed, failing with the attachments' error first and then the format's; a success is the message built from them |
| TailchatUtils.BuildIncomingFromPayload | plugins/tailchat/tailchat/utils.py:76-146 | Success(None) exactly for a payload that fails the event-type, addressing or mention gate; an admitted payload gives Some of Assemble's message exactly when Assemble succeeds, and its error otherwise |
| TailchatUtils.AdmittedBuilds | plugins/tailchat/tailchat/utils.py:117-146 | an admitted payload with a file list and the default template builds a message with the list's attachments and the key group id ':' converse id |
| TailchatUtils.BuildIncomingDelivered | plugins/tailchat/tailchat/utils.py:77-115 | a delivered message passed every gate: a message event (lower-cased type in the three names) with a group and a converse; with `require_mention`, addressed to the configured bot, or to anyone when none is configured |
| MentionText.RemoveAngleLeavesNone | plugins/tailchat/tailchat/utils.py:71 | after the first pass no `<@...>` span remains |
| MentionText.RemoveAtRunsLeavesNone | plugins/tailchat/tailchat/utils.py:72 | after the second pass every '@' is the last character or is followed by a character outside the run class |
| MentionText.StripMentionsClean | plugins/tailchat/tailchat/utils.py:68-73 | the two passes and the collapse give normal spacing and no '@' followed by a run character, for both run classes (`\S` here, `[\w-]` in the adapter's copy) |
| MentionText.NoSpanUnchanged | plugins/tailchat/tailchat/utils.py:71 | text with no `<@` pair is left unchanged by the first pass |
| MentionText.NoRunUnchanged | plugins/tailchat/tailchat/utils.py:72 | text with no '@' before a run character is left unchanged by the second pass |
| MentionText.RemoveAtRunsKeepsPrefix | plugins/tailchat/tailchat/utils.py:72 | text before the first '@' passes through the second pass unchanged |
| MentionText.RemoveOneRun | plugins/tailchat/tailchat/utils.py:72 | an '@' followed by the longest run of run characters is replaced by one space |
| MentionText.PlainTextCollapsed | plugins/tailchat/tailchat/utils.py:68-73 | for both run classes, text without '@' comes out as its words joined by single spaces |
| MentionText.ReplaceOneMention | plugins/tailchat/tailchat/utils.py:68-73 | for both run classes, one mention in plain text is replaced by a space and the rest is kept, whitespace collapsed |
| Redaction.RedactKeepsShape | plugins/tailchat/tailchat/utils.py:214-225 | every object keeps its key set, every list its length, every non-sensitive scalar its value (same code at plugins/tailchat_adapter/tailchat_adapter/utils.py:55-66) |
| Redaction.RedactIsClean | plugins/tailchat/tailchat/utils.py:214-225 | every sensitive key, at every depth, maps to "***" |
| Redaction.RedactWithoutSecrets | plugins/tailchat/tailchat/utils.py:209-225 | a payload without sensitive keys comes back unchanged |
| Redaction.RedactIdempotent | plugins/tailchat/tailchat/utils.py:209-225 | redacting twice gives the same as redacting once |
| Redaction.SensitiveAnyCase | plugins/tailchat/tailchat/utils.py:12-19 | "Token", "APP_SECRET" and "Authorization" are sensitive in any case; "tokens" and "user" are not |
| AdapterUtils.GetFirstWithPresence | plugins/tailchat_adapter/tailchat_adapter/utils.py:25-39 | the loop returns the first fully resolving candidate, null and "" included, with presence true, else (Null, false) (same code at plugins/tailchat_adapter/adapter.py:219-233) |
| AdapterUtils.GetFirst | plugins/tailchat_adapter/tailchat_adapter/utils.py:20-22 | the default only when no candidate resolves (same code at plugins/tailchat_adapter/adapter.py:215-217) |
| AdapterUtils.StripMentionText | plugins/tailchat_adapter/tailchat_adapter/utils.py:42-47 | empty text is returned as it is; otherwise normal spacing and no '@' followed by a word character or hyphen |
| AdapterUtils.StripKeepsPlainText | plugins/tailchat_adapter/tailchat_adapter/utils.py:42-47 | text without '@' is kept word for word, only its whitespace collapsed |
| AdapterUtils.StripReplacesOneMention | plugins/tailchat_adapter/tailchat_adapter/utils.py:46-47 | one `@name` mention (word characters and hyphens) in plain text becomes a space; the text before and after it is kept, whitespace collapsed |
| AdapterUtils.FullwidthCommaEndsMention | plugins/tailchat_adapter/tailchat_adapter/utils.py:46-47 | a fullwidth comma is not in `[\w\-]`, so `@bot，你好` keeps `，你好` |
| AdapterUtils.StripBareMention | plugins/tailchat_adapter/tailchat_adapter/utils.py:45-47 | '@' followed by a non-empty run of word characters and hyphens, alone, becomes empty |
| Paths.WalkAppend | plugins/tailchat_adapter/tailchat_adapter/utils.py:29-34 | walking `a + b` is walking `a` and then `b` from where it stopped |
| Paths.WalkStops | plugins/tailchat_adapter/tailchat_adapter/utils.py:29-34 | once the walk meets a non-dict or a dict without the next segment, the whole lookup is None |
| Paths.WalkThroughObjects | plugins/tailchat_adapter/tailchat_adapter/utils.py:29-34 | every step of a successful walk passes through a dict holding the next segment |
| Paths.FirstPresentIsFirst | plugins/tailchat_adapter/tailchat_adapter/utils.py:25-39 | the candidate found is the first that resolves (null or "" included) and every earlier one is absent; (None, false) when none resolves |
| Paths.FirstPresentAt | plugins/tailchat_adapter/tailchat_adapter/utils.py:25-39 | a candidate that resolves, with every earlier candidate absent, is the answer |
| Paths.FirstOrDefault | plugins/tailchat_adapter/tailchat_adapter/utils.py:20-22 | the default exactly when no candidate is present; a present null is returned |
| Paths.ConfigLookupChar | plugins/tailchat/tailchat/utils.py:52-61 | the value at the path whenever it is not None (False and 0 included), the default otherwise |
| Paths.FirstNonEmptyIsFirst | tailchat_adapter/parse.py:8-20 | absent, None and "" candidates are skipped; the first other value is returned, and None when there is none |
| Text.SplitJoin | plugins/tailchat/tailchat/utils.py:22-29 | splitting a dotted path on '.' and joining with '.' gives it back, and no part holds a '.' |
| Text.CollapseIsNormal | plugins/tailchat/tailchat/utils.py:73 | `" ".join(s.split())` has no leading, trailing, doubled or non-space whitespace |
| Text.CollapseKeepsAtFollowedBy | plugins/tailchat/tailchat/utils.py:72-73 | collapsing whitespace keeps "every '@' is followed by a q-character" when spaces satisfy q |
| Text.StripShape | tailchat_adapter/event.py:44 | `strip()` gives a contiguous part of the input with no whitespace at either end, and everything removed before and after it is whitespace |
| Text.RStripCharShape | tailchat_adapter/api.py:11 | `rstrip(c)` gives a prefix of the input that does not end in c, and only c's were removed |
| Template.FormatSucceedsIff | plugins/tailchat_adapter/tailchat_adapter/adapter.py:110-115 | `str.format` succeeds exactly when the template is well formed and every field it names is passed |
| Template.FormatValueErrors | plugins/tailchat_adapter/tailchat_adapter/adapter.py:110-115 | formatting a configured value raises AttributeError when it is not a string, otherwise only what `str.format` raises |
| Template.BraceFreeFormat | plugins/tailchat_adapter/tailchat_adapter/adapter.py:110-115 | a template without braces formats to itself whatever the arguments |
| Template.EscapedBraces | plugins/tailchat_adapter/tailchat_adapter/adapter.py:110-115 | `{{` and `}}` stand for single literal braces |
| Template.UnknownFieldRaises | plugins/tailchat_adapter/adapter.py:103-105 | a template whose first field names an argument not passed raises KeyError with that name, whatever follows |
| Template.TwoFieldTemplate | plugins/tailchat_adapter/tailchat_adapter/adapter.py:110-115 | two fields around one literal character, such as `{groupId}:{converseId}`, format to the two values around that character |
| Template.GroupConverseTemplate | plugins/tailchat_adapter/tailchat_adapter/adapter.py:110-115 | the default template `{groupId}:{converseId}` formats to the group id, ':' and the converse id |
| Extract.CollectMentions | plugins/tailchat_adapter/tailchat_adapter/adapter.py:190-198 | the loop's result is `MentionsFrom` of the items: string items kept, dict items by truthy `_id`/`id`/`userId` stringified (same loop at plugins/tailchat_adapter/adapter.py:170-178) |
| Extract.MentionsFromAppend | plugins/tailchat_adapter/tailchat_adapter/adapter.py:191-198 | extraction over a concatenation is the concatenation of the extractions, so order is kept |
| Extract.MentionsFromStrings | plugins/tailchat_adapter/tailchat_adapter/adapter.py:193-194 | a list of strings is kept exactly |
| Extract.MentionsFromMember | plugins/tailchat_adapter/tailchat_adapter/adapter.py:191-198 | an id is extracted exactly when some item contributes it |
| Extract.CollectAttachments | plugins/tailchat_adapter/tailchat_adapter/adapter.py:211-224 | the loop's result is one attachment per dict item, in order (same loop at plugins/tailchat_adapter/adapter.py:187-200) |
| Extract.AttachmentsFromCount | plugins/tailchat_adapter/tailchat_adapter/adapter.py:211-224 | every dict item yields exactly one attachment, even without url or file id; other items none |
| Extract.AttachmentsFromObjects | plugins/tailchat_adapter/tailchat_adapter/adapter.py:211-224 | a list of dicts gives the attachment of item i at position i |
| Extract.StrippedAuthorName | plugins/tailchat_adapter/tailchat_adapter/adapter.py:235-237 | None exactly for a falsy nickname/name; a truthy string gives exactly `Str(strip(name))`; AttributeError exactly for a truthy non-string |
| Extract.StrippedReply | plugins/tailchat_adapter/tailchat_adapter/adapter.py:227-239 | None unless the reply is a dict; AttributeError exactly for a dict whose author name fails; otherwise the message id (`messageId`/`_id`), author id and content unconverted and the stripped author name (same code at plugins/tailchat_adapter/adapter.py:203-213) |
| Extract.AttachmentsOfList | plugins/tailchat_adapter/tailchat_adapter/adapter.py:201-212 | a list at the first present file path gives exactly the attachments of its items |
| Extract.NoReplyDict | plugins/tailchat_adapter/tailchat_adapter/adapter.py:228-230 | a value at the reply paths that is not a dict gives no reply |
| Adapter.ExtractMentions | plugins/tailchat_adapter/tailchat_adapter/adapter.py:182-199 | [] with the presence flag when the field is absent or falsy; otherwise the extracted ids of a list, in order |
| Adapter.ExtractAttachments | plugins/tailchat_adapter/tailchat_adapter/adapter.py:201-225 | [] for a falsy value; one attachment per dict item; TypeError for a truthy value that is not iterable |
| Adapter.AttachmentSummary | plugins/tailchat_adapter/tailchat_adapter/adapter.py:118-120 | one `{name, file_id, url}` dict per attachment, in order |
| Adapter.Metadata | plugins/tailchat_adapter/tailchat_adapter/adapter.py:133-138 | exactly bot_key, event_type, mentions_present and attachments, with those values |
| Adapter.TextOf | plugins/tailchat_adapter/tailchat_adapter/adapter.py:117 | `strip_mention_text(str(content or ""))` is normally spaced |
| Adapter.Assemble | plugins/tailchat_adapter/tailchat_adapter/adapter.py:107-138 | succeeds exactly when the attachments, the reply and the session-key format all succeed, and fails with the first of their errors; a success carries those attachments, reply and key and is the message built from them |
| Adapter.ConvertMessage | plugins/tailchat_adapter/tailchat_adapter/adapter.py:83-138 | Success(None) exactly when the event type, the group/converse ids or the mention gate rejects; an admitted payload gives Some of Assemble's message exactly when Assemble succeeds, and its error otherwise |
| Adapter.AdmittedConverts | plugins/tailchat_adapter/tailchat_adapter/adapter.py:107-138 | an admitted payload with a file list, no reply dict and the default template converts: its attachments are those of the list, no reply, and the key is group id ':' converse id |
| Adapter.AbsentMentionsDropped | plugins/tailchat_adapter/tailchat_adapter/adapter.py:101-105 | with `require_mention`, a payload without mentions is dropped whatever the bot user id |
| Adapter.NoMentionFilter | plugins/tailchat_adapter/tailchat_adapter/adapter.py:101-105 | without `require_mention`, a message event with both ids is never dropped for its mentions |
| Adapter.ConvertedMessage | plugins/tailchat_adapter/tailchat_adapter/adapter.py:110-138 | a converted message is admitted, normally spaced, has the extracted attachments and the formatted session key, and exactly the metadata keys bot_key, event_type, mentions_present and attachments, with the bot key and one attachment entry per attachment |
| Adapter.Convert | plugins/tailchat_adapter/tailchat_adapter/adapter.py:83-144 | the conversion followed, in download mode, by the download pass |
| Adapter.HandleIncoming | plugins/tailchat_adapter/tailchat_adapter/adapter.py:56-81 | the outcome of handling is HandleSpec of the conversion |
| Adapter.HandleOutcome | plugins/tailchat_adapter/tailchat_adapter/adapter.py:56-67 | delivered exactly when conversion gave a message: it is that message with `request_id` added to the metadata and nothing else changed; on an exception a dump is written exactly when the request id is non-empty, with every secret masked |
| LegacyAdapter.SessionArgs | plugins/tailchat_adapter/adapter.py:103-105 | the template receives exactly groupId, converseId and messageId |
| LegacyAdapter.Assemble | plugins/tailchat_adapter/adapter.py:100-118 | succeeds exactly when the attachments, the reply and the session-key format all succeed, and fails with the first of their errors; a success is the message built from them |
| LegacyAdapter.ConvertMessage | plugins/tailchat_adapter/adapter.py:76-119 | Success(None) when not admitted; an admitted payload gives Some of Assemble's message exactly when Assemble succeeds, and its error otherwise |
| LegacyAdapter.AdmittedConverts | plugins/tailchat_adapter/adapter.py:100-118 | an admitted payload with a file list, no reply dict and the default template converts: its attachments are those of the list, no reply, and the key is group id ':' converse id |
| LegacyAdapter.AbsentMentionsPass | plugins/tailchat_adapter/adapter.py:94-98 | a message event with both ids and no mentions field is not dropped, even with `require_mention` |
| LegacyAdapter.MentionDrop | plugins/tailchat_adapter/adapter.py:94-98 | a message event with both ids is dropped exactly when `require_mention` is set, the field is present, and the bot is not addressed |
| LegacyAdapter.ConvertedMessage | plugins/tailchat_adapter/adapter.py:107-118 | the text is `str(content or "")` unstripped, the metadata exactly {"raw": payload}; attachments and session key as extracted and formatted |
| LegacyAdapter.UnknownPlaceholderRaises | plugins/tailchat_adapter/adapter.py:103-105 | a template starting with any other placeholder (`{botKey}` included) raises KeyError with its name |
| LegacyAdapter.SessionKeyErrorRaises | plugins/tailchat_adapter/adapter.py:103-105 | any formatting error of an admitted payload is the conversion's error |
| LegacyAdapter.Convert | plugins/tailchat_adapter/adapter.py:76-124 | the conversion followed, in download mode, by the download pass |
| LegacyAdapter.HandleSpec | plugins/tailchat_adapter/adapter.py:53-74 | delivered exactly for a converted message; failed exactly for an exception, with no dump written |
| LegacyAdapter.HandleIncoming | plugins/tailchat_adapter/adapter.py:53-74 | the outcome of handling is HandleSpec of the conversion |
| LegacyAdapter.UnknownPlaceholderDropped | plugins/tailchat_adapter/adapter.py:54-58 | an unknown placeholder is caught by `handle_incoming` and the message is dropped without a dump |
| Download.MaxBytes | plugins/tailchat_adapter/tailchat_adapter/adapter.py:161 | an integer size gives `mb * 1048576`; only an integer or a bool succeeds |
| Download.PathJoin | plugins/tailchat_adapter/tailchat_adapter/adapter.py:177 | an absolute name is the result; otherwise the result ends with the name |
| Download.StepsShape | plugins/tailchat_adapter/tailchat_adapter/adapter.py:163-180 | every attachment stays in place and only a falsy url changes (to the resolved one); an attachment without a url after resolving, or whose fetch raises, adds no path; each other adds one (same loop at plugins/tailchat_adapter/adapter.py:143-160) |
| Download.StepsFailureSticks | plugins/tailchat_adapter/tailchat_adapter/adapter.py:163-180 | once a prefix raises, the whole loop raises with the same error |
| Download.StepsPathsNamed | plugins/tailchat_adapter/tailchat_adapter/adapter.py:176-177 | when every name is non-empty and relative, each saved path is the directory joined with one of the names |
| Download.DownloadAttachments | plugins/tailchat_adapter/tailchat_adapter/adapter.py:154-180 | the loop's result is DownloadSpec: resolved urls written back and the saved paths appended to `downloaded_files`, in order |
| Download.DownloadPassSpec | plugins/tailchat_adapter/tailchat_adapter/adapter.py:141-142 | only a converted message in "download" mode goes through the download pass |
| Download.DownloadPass | plugins/tailchat_adapter/tailchat_adapter/adapter.py:141-142 | the method's result is DownloadPassSpec |
| Parse.GetFirst | tailchat_adapter/parse.py:8-20 | the loop returns the first candidate resolving to something other than null or "", else null |
| Parse.ParseIntRoundTrip | tailchat_adapter/parse.py:55 | `int(str(i)) == i` for every integer |
| Parse.Kind | tailchat_adapter/parse.py:56 | "image" exactly when the mime starts with "image/" or the lower-cased name ends in an image suffix; AttributeError for a non-string mime, or name when it is reached |
| Parse.AttachmentItemShape | tailchat_adapter/parse.py:50-58 | a kept attachment has a truthy url, a truthy name ("file" by default) and size 0 when missing; non-dicts and url-less items are skipped |
| Parse.AttachmentsFailureSticks | tailchat_adapter/parse.py:49-58 | once a prefix raises, the whole list raises with the same error |
| Parse.AttachmentsFromKept | tailchat_adapter/parse.py:46-58 | a successful parse has one attachment per item that yields one, each with a truthy url; every kept attachment is the value of some item and every item's value is kept |
| Parse.AttachmentsFromAppend | tailchat_adapter/parse.py:46-58 | parsing two lists in turn succeeds exactly when each part does, and gives the first part's attachments followed by the second's: input order is kept |
| Parse.CollectAttachments | tailchat_adapter/parse.py:46-58 | the loop's result is the attachment list of the files value ([] when it is not a list) |
| Parse.ReplyOf | tailchat_adapter/parse.py:60-67 | a reply exactly for a dict with a truthy `_id` or `id`; its message id is `_id or id`, its author and content the value or "" when falsy |
| Parse.SessionKey | tailchat_adapter/parse.py:69 | always truthy; `str(group) + ":" + str(converse)` when both are truthy, the converse id without a group, the sender id without a converse, "tailchat" without converse and sender |
| Parse.SessionKeySplits | tailchat_adapter/parse.py:69 | with two colon-free truthy ids the combined key splits back into exactly those ids |
| Parse.SenderName | tailchat_adapter/parse.py:35 | the looked-up name, else `str(sender_id or "")` |
| Parse.MessageOf | tailchat_adapter/parse.py:71-82 | self id "tailchat-bot"; missing ids become ""; text and sender id as strings; sender name, session key and reply exactly as SenderName, SessionKey and ReplyOf give them for the payload |
| Parse.ParseIncoming | tailchat_adapter/parse.py:23-82 | a non-dict raises; Success(None) exactly for a rejected type or an empty mentions list under `require_mention`; an unusable config raises; otherwise a message exactly when the attachments parse, with their error otherwise |
| Parse.BodyChoice | tailchat_adapter/parse.py:28 | fields come from `payload` when truthy, else `data`, else the payload itself |
| Platform.ConvertMessage | tailchat_adapter/platform.py:135-156 | the method's result is ConvertSpec of the incoming message |
| Platform.ConvertFields | tailchat_adapter/platform.py:137-146 | group message exactly when the group id is truthy; the group id falls back to "", the self id to "tailchat-bot"; session id = session key; message text = text |
| Platform.ChainShape | tailchat_adapter/platform.py:147-153 | the chain starts with one Plain(text) exactly when the text is non-empty, then the attachment segments, at most one per attachment |
| Platform.SegmentsInOrder | tailchat_adapter/platform.py:149-153 | when every attachment has a url, segment i is Image(url) for an image and Plain("\n[File] name url") otherwise |
| Platform.OneSegmentPerUrl | tailchat_adapter/platform.py:149-153 | exactly one segment per attachment with a truthy url, none for the others |
| Platform.AttachmentChainAppend | tailchat_adapter/platform.py:149-153 | the chain of two attachment lists in a row is the concatenation of their chains |
| Event.CollectPieces | tailchat_adapter/event.py:36-42 | the loop's result is Pieces of the chain |
| Event.PiecesFromSegments | tailchat_adapter/event.py:37-42 | every piece is a Plain segment's text or an Image segment's truthy file |
| Event.SegmentsContribute | tailchat_adapter/event.py:37-42 | every Plain text and every truthy Image file is among the pieces |
| Event.PiecesAppend | tailchat_adapter/event.py:37-42 | pieces of two chains in a row are the pieces of each, in order |
| Event.Kept | tailchat_adapter/event.py:44 | only truthy pieces are kept |
| Event.Strings | tailchat_adapter/event.py:44 | `str.join` succeeds exactly when every item is a string, giving those strings; else TypeError |
| Event.OutText | tailchat_adapter/event.py:44-46 | the text is never empty, and it exists exactly when every kept piece is a string |
| Event.OutTextTrimmed | tailchat_adapter/event.py:44-46 | the text is the zero-width space or has no whitespace at either end |
| Event.NoTextSendsZeroWidthSpace | tailchat_adapter/event.py:45-46 | a chain that contributes no text is sent as "​" |
| Event.SendCallTarget | tailchat_adapter/event.py:48-53 | the text goes to the incoming message's group and converse, carrying a reply reference exactly when it has a reply |
| Event.ReplyCarried | tailchat_adapter/event.py:28-34 | a reply with a truthy id reaches the request body as `meta.reply` with its id, author and content, and the author in `meta.mentions` |
| Event.EchoOfText | tailchat_adapter/event.py:36-46 | a text-only chain built by `convert_message` is sent as the stripped text, or "​" |
| Event.Send | tailchat_adapter/event.py:27-53 | a chain that cannot be joined raises before any request; otherwise the client's state and result are those of `send_message` with the message's ids, the text and the reply |
| Http.JsonOf | plugins/tailchat/tailchat/tailchat_api.py:108-109 | a status outside 2xx raises HttpStatusError, a body that is not JSON raises; otherwise the JSON |
| Http.JsonAnswer | plugins/tailchat/tailchat/tailchat_api.py:42-44 | a transport failure raises; an answer goes through `raise_for_status()` and `json()` |
| Http.Send | plugins/tailchat/tailchat/tailchat_api.py:96-100 | one POST consumes the next scripted response and logs one exchange; with none left it fails in transport |
| Http.SendAddsOne | plugins/tailchat/tailchat/tailchat_api.py:96-100 | one POST adds one exchange, and one request exactly when it carries a token header |
| Http.Connection.Deliver | plugins/tailchat/tailchat/tailchat_api.py:96-100 | the response is the head of the script, which then drops it (transport failure when empty); the exchange is appended to the log |
| TailchatApi.StripSlashes | plugins/tailchat/tailchat/tailchat_api.py:29 | success exactly for a string, which loses exactly its trailing slashes |
| TailchatApi.FullPathConfig | plugins/tailchat/tailchat/tailchat_api.py:19-36 | success exactly for a string host; the full-path variant with the host free of trailing '/' |
| TailchatApi.UnderBaseConfig | plugins/tailchat_adapter/tailchat_adapter/tailchat_api.py:19-34 | success exactly for a string host and OpenAPI base; the under-base variant with both free of trailing '/' |
| TailchatApi.ApiBuildsIsConstructible | plugins/tailchat_adapter/__init__.py:85-102 | the model's test of a bot config is exactly the condition under which its client can be created |
| TailchatApi.FullPathUrl | plugins/tailchat/tailchat/tailchat_api.py:111-114 | the url is the host, exactly one added or kept '/', and the path |
| TailchatApi.UnderBaseUrl | plugins/tailchat_adapter/tailchat_adapter/tailchat_api.py:110-111 | the url is host + base + path, with no slash repair |
| TailchatApi.LoginOutcome | plugins/tailchat/tailchat/tailchat_api.py:39-49 | one POST without a token header carrying appId and md5(appId+appSecret); success exactly for 2xx JSON whose first present of data.token, data.jwt, token, jwt is truthy, which is then held; a failed login keeps the held token |
| TailchatApi.LoginAccepted | plugins/tailchat/tailchat/tailchat_api.py:39-49 | a 2xx JSON answer with a truthy token gives one exchange and the token held |
| TailchatApi.LoginAddsNoRequest | plugins/tailchat/tailchat/tailchat_api.py:39-49 | a login adds at most one exchange, and no request |
| TailchatApi.LoginFirstWithoutToken | plugins/tailchat/tailchat/tailchat_api.py:94-95 | without a token, the first exchange of `_post` is a login |
| TailchatApi.PostWithToken | plugins/tailchat/tailchat/tailchat_api.py:94-100 | with a token held, `_post` goes straight to the request |
| TailchatApi.AuthFailureRetries | plugins/tailchat/tailchat/tailchat_api.py:101-103 | a 401 or 403 leads to a re-login and retry |
| TailchatApi.RetryAfterLogin | plugins/tailchat/tailchat/tailchat_api.py:101-107 | after a successful re-login, one request with the new token whose answer is final |
| TailchatApi.RetryOnce | plugins/tailchat/tailchat/tailchat_api.py:101-109 | a 401/403 followed by a successful login gives exactly one retry with the new token, and its answer is final whatever it is |
| TailchatApi.RetryBound | plugins/tailchat/tailchat/tailchat_api.py:101-107 | the retry adds a login and at most one request |
| TailchatApi.RequestBound | plugins/tailchat/tailchat/tailchat_api.py:96-109 | the request and its retry add one to three exchanges, at most two of them requests |
| TailchatApi.AtMostTwoRequests | plugins/tailchat/tailchat/tailchat_api.py:93-109 | `_post` makes at most four POSTs and at most two requests: never a third request (same code at plugins/tailchat_adapter/tailchat_adapter/tailchat_api.py:92-108) |
| TailchatApi.RequestSuccess | plugins/tailchat/tailchat/tailchat_api.py:96-109 | a successful request is the 2xx JSON answer to the last request logged |
| TailchatApi.SuccessMeans2xx | plugins/tailchat/tailchat/tailchat_api.py:108-109 | `_post` returns only the 2xx JSON answer of its last request; a non-2xx final status raises |
| TailchatApi.NoRetryOtherwise | plugins/tailchat/tailchat/tailchat_api.py:96-109 | with a token and a first answer other than 401/403, exactly one POST with that token, and the answer through `raise_for_status` and `json()` |
| TailchatApi.SendPayload | plugins/tailchat/tailchat/tailchat_api.py:58-70 | groupId, converseId and content always; `meta.reply` only for a reply with a truthy id, keyed `_id` here and `messageId` in plugins/tailchat_adapter/tailchat_adapter/tailchat_api.py:57-69 |
| TailchatApi.ResolveOutcome | plugins/tailchat/tailchat/tailchat_api.py:73-81 | a falsy file id gives None with no request; a failing request gives None instead of raising; the connection ends as the post left it |
| TailchatApi.GatherFits | plugins/tailchat/tailchat/tailchat_api.py:86-91 | the chunk loop succeeds exactly when there are no chunks or the total fits the cap (exactly `max_bytes` allowed), yielding all chunks concatenated |
| TailchatApi.GatherFails | plugins/tailchat/tailchat/tailchat_api.py:89-90 | the chunk loop's only failure is ValueError("Attachment exceeds max size") |
| TailchatApi.DownloadOutcome | plugins/tailchat/tailchat/tailchat_api.py:83-91 | a 2xx download returns every byte when the body fits and raises ValueError otherwise |
| TailchatApi.Client.Transmit | plugins/tailchat/tailchat/tailchat_api.py:96-100 | one POST through the connection, as Http.Send |
| TailchatApi.Client.FirstOf | plugins/tailchat/tailchat/utils.py:32-34 | the client's `get_first` is the first present candidate, else the default |
| TailchatApi.Client.Login | plugins/tailchat/tailchat/tailchat_api.py:39-49 | the new state and result are LoginSpec's |
| TailchatApi.Client.PostJson | plugins/tailchat/tailchat/tailchat_api.py:93-109 | the new state and result are PostSpec's |
| TailchatApi.Client.SendMessage | plugins/tailchat/tailchat/tailchat_api.py:51-71 | the new state and result are PostSpec's for the send path and SendPayload |
| TailchatApi.Client.ResolveFileUrl | plugins/tailchat/tailchat/tailchat_api.py:73-81 | the new state and result are ResolveSpec's |
| TailchatApi.Client.DownloadFile | plugins/tailchat/tailchat/tailchat_api.py:83-91 | the chunk loop's result is DownloadSpec of the stream |
| StandaloneApi.Configure | tailchat_adapter/api.py:10-14 | success exactly for a string host, which is stored with trailing slashes removed; AttributeError otherwise |
| StandaloneApi.UrlsAfterStrippedHost | tailchat_adapter/api.py:10-20 | the login url, and the send url built the same way at line 61, are the stripped host followed by the fixed path, and the host has no trailing '/' |
| StandaloneApi.JwtOf | tailchat_adapter/api.py:26 | AttributeError exactly when the data, or a truthy `data.data`, is not a dict |
| StandaloneApi.JwtFirstTruthy | tailchat_adapter/api.py:26 | the jwt is truthy exactly when some of data.jwt, data.token, jwt, token is, and it is the first truthy one in that order |
| StandaloneApi.LoginOutcome | tailchat_adapter/api.py:17-30 | one POST without a token; success exactly for a 2xx JSON answer with a truthy jwt, which is held; otherwise the held jwt is unchanged |
| StandaloneApi.MessagePayload | tailchat_adapter/api.py:42-58 | keys exactly converseId, groupId, content, plain, meta; plain = content; meta = {} unless the reply has a truthy message_id, then mentions [author] or [], and reply {_id, author or "", content or ""} |
| StandaloneApi.LoginFirst | tailchat_adapter/api.py:39-40 | without a jwt, the first exchange of `send_message` is the login |
| StandaloneApi.LoginAddsNoRequest | tailchat_adapter/api.py:17-30 | a login adds one exchange, not a request |
| StandaloneApi.RetryBound | tailchat_adapter/api.py:66-72 | the retry adds a login and at most one request |
| StandaloneApi.DeliverBound | tailchat_adapter/api.py:60-75 | the request and its retry add one to three exchanges, at most two requests |
| StandaloneApi.AtMostTwoRequests | tailchat_adapter/api.py:32-75 | `send_message` makes at most four POSTs and at most two requests |
| StandaloneApi.DeliverSuccess | tailchat_adapter/api.py:74-75 | a successful delivery is the 2xx JSON answer to the last request |
| StandaloneApi.SuccessMeans2xx | tailchat_adapter/api.py:74-75 | a successful `send_message` built a payload and returns the 2xx JSON answer to its last request |
| StandaloneApi.NoRetryOtherwise | tailchat_adapter/api.py:60-64 | with a jwt and a first answer other than 401/403, exactly one POST with that jwt |
| StandaloneApi.RetryOnce | tailchat_adapter/api.py:66-75 | a 401/403 then a successful login gives exactly login + one retry with the new jwt, whose answer is final |
| StandaloneApi.Client.Login | tailchat_adapter/api.py:17-30 | the new state and result are LoginSpec's |
| StandaloneApi.Client.SendMessage | tailchat_adapter/api.py:32-75 | the new state and result are SendSpec's |
| Router.Replies | plugins/tailchat_adapter/tailchat_adapter/router.py:84-96 | a falsy result sends nothing, a non-empty string once, a value that is neither string nor list nothing (lists: StringItemsCount) |
| Router.StringItemsCount | plugins/tailchat_adapter/tailchat_adapter/router.py:93-96 | each string item is sent as often as it occurs, and nothing else |
| Router.StringItemsOfStrings | plugins/tailchat_adapter/tailchat_adapter/router.py:93-96 | a list of strings is sent item by item |
| Router.SendListItems | plugins/tailchat_adapter/tailchat_adapter/router.py:93-96 | the loop sends exactly the string items, in order |
| Router.SendReplyIfPresent | plugins/tailchat_adapter/tailchat_adapter/router.py:84-96 | the sends are the result's replies when an adapter exists for the bot key, else none |
| Router.BackendPayload | plugins/tailchat_adapter/tailchat_adapter/router.py:67-73 | exactly text, attachments (one dict per attachment), session_key, metadata and reply (null without one) |
| Router.Endpoint | plugins/tailchat_adapter/tailchat_adapter/router.py:66 | the url without trailing slashes followed by `/api/tailchat/ingest` |
| Router.UnroutedDoesNothing | plugins/tailchat_adapter/tailchat_adapter/router.py:36-43 | without a truthy bot key or a route for it: no handler call, no post, no send, metadata unchanged |
| Router.ModeSelectsRoute | plugins/tailchat_adapter/tailchat_adapter/router.py:45-49 | "backend" never calls the handler; every other mode never posts |
| Router.ProfileRoute | plugins/tailchat_adapter/tailchat_adapter/router.py:51-60 | a truthy profile id is recorded in the metadata, nothing else changes; without a handler nothing is sent, with one its result's replies are |
| Router.BackendRoute | plugins/tailchat_adapter/tailchat_adapter/router.py:62-82 | the message passes on unhandled with its metadata; a post exactly when the backend url is set, to its endpoint with the backend payload; a failed or non-2xx call sends nothing |
| PluginConfig.NormalizeConfig | plugins/tailchat_adapter/__init__.py:186-230 | unchanged without a `tailchat` key or when it is not legacy; AttributeError for a non-dict `tailchat` |
| PluginConfig.LegacyBecomesOneBot | plugins/tailchat_adapter/__init__.py:193-229 | a legacy config gains exactly one bot "default" with the server's callback path (or "/tailchat/callback"), the security token and mode "profile"; other keys stay |
| PluginConfig.LegacySectionsMustBeDicts | plugins/tailchat_adapter/__init__.py:194-197 | a legacy config whose server, security, features or mapping value is not a dict raises |
| PluginConfig.NormalizeIdempotent | plugins/tailchat_adapter/__init__.py:186-230 | normalizing a normalized config changes nothing |
| PluginConfig.Fallback | plugins/tailchat_adapter/__init__.py:162 | the bot's value when truthy, else the section's, else the default |
| PluginConfig.BaseFeatures | plugins/tailchat_adapter/__init__.py:144-150 | succeeds exactly for a dict defaults section, with the five feature keys, require_mention True and attachment_mode url_only |
| PluginConfig.BotOf | plugins/tailchat_adapter/__init__.py:155-181 | succeeds exactly for a readable entry; keyed by its truthy bot_key, else `bot_<index+1>` |
| PluginConfig.FeaturesOverride | plugins/tailchat_adapter/__init__.py:156 | the features are the base overridden key by key by the bot's |
| PluginConfig.ConnectionFields | plugins/tailchat_adapter/__init__.py:162-174 | each connection field is the bot's, else the section's, else the built-in default; callback path and token from the bot's `callback` dict |
| PluginConfig.Outcomes | plugins/tailchat_adapter/__init__.py:154-181 | one outcome per entry, with its index |
| PluginConfig.BotsFromEach | plugins/tailchat_adapter/__init__.py:154-181 | the loop succeeds exactly when every entry is readable, and then entry i gives BotConfig i |
| PluginConfig.BuildBots | plugins/tailchat_adapter/__init__.py:153-181 | the loop's result is BotsFrom of the entries |
| PluginConfig.BuildBotConfigs | plugins/tailchat_adapter/__init__.py:127-183 | the method's result is BotConfigs of the configuration |
| PluginConfig.PrepareReadsBots | plugins/tailchat_adapter/__init__.py:128-132 | the loop receives the bots list and the tailchat section of the normalized config |
| PluginConfig.LegacyConfigOneBot | plugins/tailchat_adapter/__init__.py:127-183 | a legacy config yields exactly one bot: "default", mode "profile", the legacy callback path and token |
| PluginConfig.BotsInOrder | plugins/tailchat_adapter/__init__.py:154-155 | one BotConfig per entry, in order, keyed `bot_<n>` when the entry has no truthy key |
| PluginConfig.FirstBroken | plugins/tailchat_adapter/__init__.py:84-103 | the index of the first bot whose client cannot be created, or the number of bots |
| PluginConfig.RouteMap | plugins/tailchat_adapter/__init__.py:81 | every bot's key has a route |
| PluginConfig.AdaptersAfter | plugins/tailchat_adapter/__init__.py:84-103 | every bot's key has an adapter stored |
| PluginConfig.LastDuplicateWins | plugins/tailchat_adapter/__init__.py:102-103 | a key maps to the adapter and the route of the last bot carrying it |
| PluginConfig.Callbacks | plugins/tailchat_adapter/__init__.py:104-112 | one callback entry per bot, in order, with the adapter stored under its key |
| PluginConfig.DuplicateKeysShareAdapter | plugins/tailchat_adapter/__init__.py:103-112 | two bots with the same key both get the later one's adapter |
| PluginConfig.Plugin.Build | plugins/tailchat_adapter/__init__.py:77-113 | the router, adapters and server after `_build`, or its error with the adapters stored up to it |
| PluginConfig.Plugin.Wire | plugins/tailchat_adapter/__init__.py:79-113 | the route map, the adapters, then the callback server |
| PluginConfig.Plugin.StoreAdapters | plugins/tailchat_adapter/__init__.py:84-103 | the loop stores one adapter per bot up to the first broken one |
| Registry.Registry.Register | plugins/tailchat/tailchat/registry.py:10-11 | the id now maps to the platform; every other id is untouched |
| Registry.Registry.Get | plugins/tailchat/tailchat/registry.py:13-14 | the registered platform, None for an id never registered |
| Registry.LastRegistrationWins | plugins/tailchat/tailchat/registry.py:10-14 | after any registrations an id maps to its last registration's platform |
| Registry.UnregisteredUnchanged | plugins/tailchat/tailchat/registry.py:10-14 | an id never registered keeps what it had |
| Callback.Refuse | plugins/tailchat_adapter/tailchat_adapter/server.py:64 | `{"ok": False, "error": reason}` with the status |
| Callback.MissingHashHeader | plugins/tailchat_adapter/tailchat_adapter/server.py:111-116 | a missing or empty hash header fails the check whatever the digest |
| Callback.HeaderNameCase | plugins/tailchat_adapter/tailchat_adapter/server.py:112 | the header name is matched regardless of case |
| BotServer.FindBot | plugins/tailchat_adapter/tailchat_adapter/server.py:91-95 | the index of the first bot with the key, None when no bot has it |
| BotServer.GetAdapter | plugins/tailchat_adapter/tailchat_adapter/server.py:91-95 | the loop returns the first matching bot's adapter, else None |
| BotServer.GetCallbackToken | plugins/tailchat_adapter/tailchat_adapter/server.py:118-122 | the loop returns the first matching bot's token, else None |
| BotServer.Decide | plugins/tailchat_adapter/tailchat_adapter/server.py:61-89 | a payload is handed only to a bot with the given key whose token the request satisfies |
| BotServer.CallbackFixed | plugins/tailchat_adapter/tailchat_adapter/server.py:60-89 | the corrected handler decides with the route's own bot key |
| BotServer.TokenFirst | plugins/tailchat_adapter/tailchat_adapter/server.py:97-103 | a token mismatch is 401 whatever the address and body |
| BotServer.IpRefused | plugins/tailchat_adapter/tailchat_adapter/server.py:104-108 | an address outside a non-empty allowlist is 401, not 403, once the token passes |
| BotServer.BodyOutcome | plugins/tailchat_adapter/tailchat_adapter/server.py:71-89 | past the checks: 400 for invalid JSON; an empty body is accepted as {} and a decoded body with its value, handed to the route's bot with `{"ok": True}` |
| BotServer.BadHashRefused | plugins/tailchat_adapter/tailchat_adapter/server.py:66-69 | with the hash enabled, a missing header or a digest mismatch is 401 "invalid body hash" once security passes |
| BotServer.UnknownKeyPassesToken | plugins/tailchat_adapter/tailchat_adapter/server.py:97-99 | a key no bot has gives no token, so the token check passes and only the allowlist decides |
| BotServer.UnknownBotRefused | plugins/tailchat_adapter/tailchat_adapter/server.py:66-87 | a key no bot has is 404 "unknown bot" only once the body is read: a failing hash is still 401 and invalid JSON still 400 |
| BotServer.UnknownQueryKey | plugins/tailchat_adapter/tailchat_adapter/server.py:61-87 | as written, a `bot_key` query naming no bot is 404 on any route, whatever the route's token |
| BotServer.QueryKeyBypassesToken | plugins/tailchat_adapter/tailchat_adapter/server.py:61 | a request without a token on a protected bot's route that names an unprotected bot gets through as written, and is refused by CallbackFixed |
| PluginServer.HandleCallback | plugins/tailchat_adapter/server.py:53-76 | security (401), body hash when enabled (401), JSON (400), then accepted with the payload handed on |
| PluginServer.WrongTokenRefused | plugins/tailchat_adapter/server.py:78-83 | a configured token the query does not match is 401, before address and body |
| PluginServer.ForeignAddressRefused | plugins/tailchat_adapter/server.py:84-88 | with the token accepted, a client outside a non-empty allowlist is 401 |
| PluginServer.BadHashRefused | plugins/tailchat_adapter/server.py:59-61 | with the token and address accepted and the hash enabled, a digest check that fails is 401 |
| PluginServer.BodyOutcome | plugins/tailchat_adapter/server.py:63-76 | past the checks, an empty body is accepted as {}, invalid JSON is 400 and a decoded body is handed on |
| StandaloneServer.AllowSet | tailchat_adapter/server.py:27 | the configured addresses without empty entries |
| StandaloneServer.MountPath | tailchat_adapter/server.py:37 | the path with a leading '/' added when missing |
| StandaloneServer.MountPathIdempotent | tailchat_adapter/server.py:37 | mounting a mounted path changes nothing |
| StandaloneServer.HandleCallback | tailchat_adapter/server.py:40-62 | address (403), token (401), JSON (400), then ok with `queued` and the request id; what is queued is exactly the decoded payload |
| StandaloneServer.ForeignAddressForbidden | tailchat_adapter/server.py:43-44 | a known client outside a non-empty allowlist gets 403 whatever its token and body |
| StandaloneServer.AddressCheckSkipped | tailchat_adapter/server.py:43 | without client information or with no allowlist the address check passes |
| StandaloneServer.WrongTokenRefused | tailchat_adapter/server.py:46-49 | a configured token the query does not match is 401 once the address passes |
| StandaloneServer.BodyOutcome | tailchat_adapter/server.py:51-62 | an empty body is queued as {}; invalid JSON is 400; non-UTF-8 bytes raise; a decoded body is queued as it is and answered `{"ok": True, "queued": ..., "request_id": ...}`, with `queued` false when the enqueue raises |
| SingletonServer.HandleCallback | plugins/tailchat/tailchat/server_singleton.py:32-57 | an unknown robot is 404; a payload is handed on only for a registered robot whose token check passes, with `{"ok": True}`, and it is exactly the decoded payload |
| SingletonServer.UnknownRobotFirst | plugins/tailchat/tailchat/server_singleton.py:34-36 | an unknown robot is 404 even when the token would be wrong |
| SingletonServer.WrongTokenRefused | plugins/tailchat/tailchat/server_singleton.py:70-77 | a robot with a token refuses a request whose query token differs, with 401 |
| SingletonServer.NoTokenPasses | plugins/tailchat/tailchat/server_singleton.py:71-72 | without a configured token every request passes the token check |
| SingletonServer.BodyOutcome | plugins/tailchat/tailchat/server_singleton.py:41-57 | an empty body is handed on as {}; invalid JSON is 400 with the body text dumped; non-UTF-8 bytes raise; a decoded body is handed to `on_callback` as it is, with `{"ok": True}` |
| SingletonServer.ServerState.EnsureStarted | plugins/tailchat/tailchat/server_singleton.py:24-67 | a call while the thread is alive changes nothing; otherwise a server is started on the given address |

## Left out

- Servers and concurrency: FastAPI routing, uvicorn, threads, `start`/`stop`, `asyncio.create_task` and the
  platform's queue and `run` loop are I/O and scheduling. Each request's decision is modelled as a function, and
  only the "already running" guard is kept, as a field.
- Coroutines are modelled as sequential calls. A coroutine returned by a handler counts as its awaited result.
- The network, hashes, clock and uuids are parameters: `Http.Connection` holds scripted responses, and md5 and
  sha256 are function parameters. The request id is a parameter, and the dump file write is represented by the
  dumped JSON value.
- The filesystem is not modelled: `write_redacted_payload`'s file, `os.makedirs`, `open`, `load_config`/YAML and
  `_load_default_config`. The download pass records only whether
  each fetch returns, and the paths it would write.
- `httpx` clients and the three `close` methods are not modelled. The platform's `terminate`, `meta`,
  `handle_msg` and `send_by_session` are not modelled either, nor the framework's `super().send`.
- The `Content-Type` header of the standalone client and the clients' timeouts are not modelled.
- `upload_path` is stored but no code path uses it, so it has no operation.
- The adapters' `send_text` forwards to the client's `send_message` with the message's group, converse and
  reply. The router's sends stop at the ordered list of texts: `Router.SendReplyIfPresent` models which texts
  are sent, and `TailchatApi.Client.SendMessage` models each call to the client.
- `TailchatApi`: the token candidate paths are a parameter of the specification functions. The client passes
  the copy's list.
- `StandaloneApi.Client.constructor` takes an already-configured `ApiConfig`. `StandaloneApi.Configure` models
  the `rstrip` that `__init__` does.
- JsonModel.PyStr gives exact text for null, bools, ints and strings. Lists and dicts become a fixed placeholder
  text instead of Python's repr.
- `str.lower` is ASCII lower-casing.
- `AdapterUtils.IsWordChar`: `\w` in the adapter's mention regex follows Unicode 15 exactly on ASCII,
  Latin-1, General Punctuation, CJK Symbols and Punctuation, and the Halfwidth and Fullwidth Forms. Any other
  character that is not whitespace counts as a word character. So punctuation and symbols from other
  blocks, such as `→` or `★`, continue a mention in the model where Python's regex would end it.
- `Http.TokenHeader`: the `X-Token` header carries whatever truthy JSON value the login produced. httpx
  raises TypeError for a header value that is not a string, so a numeric or object token would make every
  later request raise in Python. The model sends the request with that value.
- `Template`: `str.format` supports literal text, `{{`, `}}` and `{name}`. Fields with conversions, format
  specs, attribute or index access, and positional fields are errors in the model.
- `Parse.ParseInt`: `int()` accepts optional surrounding whitespace, a sign and ASCII digits. Underscores and
  non-ASCII digits are not accepted.
- `Download.MaxBytes`: a string or list `max_attachment_mb` is a TypeError in the model, so the whole download
  pass fails and `handle_incoming` drops the message. Python repeats the sequence instead; the size comparison
  inside `download_file` then raises, `_download_attachments` catches that per attachment
  (plugins/tailchat_adapter/tailchat_adapter/adapter.py:170-174), and the message is still delivered with
  those downloads skipped.
- `Download.DownloadAttachments`: the message is rebuilt rather than updated in place, so aliasing between the
  message and other holders of its attachment objects is not modelled. `Download.Env` gives the resolved url and
  fetch outcome per attachment.
- `PluginConfig.Plugin.Build`: FastAPI's handling of two routes with the same path, and the router sharing the
  adapter dict object, are represented by the final maps only.
- `PluginConfig`: the `message_handler` set on the plugin is a flag in the router, not a callable.
- Floating-point JSON numbers are not modelled; numbers are integers.

## Findings

| source | as written | input that shows it | evidently intended | confidence | as-written member | corrected member |
|---|---|---|---|---|---|---|
| plugins/tailchat_adapter/tailchat_adapter/server.py:61 | `bot_key: str = bot.bot_key` is an ordinary parameter of the route handler, so FastAPI reads it from the query string; a client can name any bot, and that bot's token is checked and its adapter receives the payload (modelled by BotServer.CallbackAsWritten) | two bots, A with callback token "s" and B with none; a POST to A's path with query `bot_key=B` and no token is accepted and handed to B's adapter | each route checks its own bot's token and hands the payload to its own bot | not executed | BotServer.QueryKeyBypassesToken | BotServer.CallbackFixed |
