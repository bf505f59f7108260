# SillyTavernchat: OpenAI-family proxies, announcements, invitation codes and the registration form

This project models in Dafny four parts of the SillyTavernchat server and its
registration page, and proves properties of that model.

- **The OpenAI-family proxy endpoints** (`src/endpoints/openai.js`):
  - Image captioning. The model covers:
    - the per-provider API-key ladder;
    - the reverse-proxy override;
    - the "no key" refusal;
    - the chat-completion body, including the custom include/exclude body;
    - the per-provider URL ladder and the outgoing header precedence;
    - the Groq and text-generation-webui message dialects;
    - extraction of the caption from the reply.
  - Speech synthesis for OpenAI, ElectronHub and a custom endpoint.
  - Audio transcription, image generation, and the ElectronHub model list.

  Each handler becomes two functions:
  - a *plan* that either refuses the request or describes the one upstream call to make;
  - a *result* that turns the upstream reply into the caller's response.

  The ElectronHub speech body is assembled step by step in the source, so it is modelled by methods with loops. The two loops (`ForwardOtherKeys`, `DropUndefined`) are proved against map comprehensions; the literal and the optional copies (`HubLiteral`, `HubTypedFields`, `CopyWhen`) are proved to produce exact map updates and to keep the `HubTyped` predicate; and the whole chain (`ElectronHubSpeechBody`) is proved equal to the declarative `ElectronHubBody`.
- **Announcements** (`src/endpoints/announcements.js`). This is an `AnnouncementStore` class whose `file` field is the stored JSON file. The model covers:
  - listing all announcements, and listing only the enabled ones;
  - `create`, `update`, `delete` and `toggle`, with every status code and error message;
  - the rule that the file is rewritten only when the write succeeds.
- **Invitation codes** (`src/endpoints/invitation-codes.js`). The model covers:
  - the admin handlers for status, list, create, batch create, delete, batch delete and cleanup;
  - the `enabled` gate;
  - the count validation and loop of batch create, including JavaScript's numeric coercion of `count`;
  - the accounting of batch delete.

  The invitation-code store is a class that records every call made to it. Its answers are an arbitrary function of the call history.
- **Registration form validation** (`public/scripts/register.js`). The model covers:
  - the submit-time check order and its messages;
  - the message box;
  - the three live field validators, which set the `valid` / `invalid` marks of an input.

The `Json` module defines the JavaScript value semantics the source relies on:
- truthiness, `??` and `||`;
- optional chaining;
- `Number(...)` coercion, with `NaN` and the infinities;
- `String.prototype.trim`, using the ECMAScript whitespace set;
- UTF-16 string length.

The `Http` module defines the response vocabulary and the secret store.

## Model

| member | source | states |
|---|---|---|
| Json.TrimIsInnerSlice | src/endpoints/announcements.js:96-97 | `trim()` returns the contiguous slice of its input after the leading white space, and everything cut at either end is white space |
| Json.TrimEndsNotWhitespace | src/endpoints/announcements.js:96-97 | neither the first nor the last character `trim()` keeps is white space |
| Json.TrimEmptyIffBlank | src/endpoints/announcements.js:96-97 | `trim()` gives the empty string exactly when every character is whitespace |
| Json.Utf16Length | public/scripts/register.js:95-98 | `length` counts UTF-16 units: between one and two per character, and exactly one each when no character lies outside the Basic Multilingual Plane |
| Http.RejectIgnoresReply | src/endpoints/openai.js:88-92 | a request refused before the network answers with its status code alone, whatever the upstream would have said |
| Http.UpstreamFailureVerbatim | src/endpoints/openai.js:210-214 | a non-ok upstream reply is relayed as a 500 carrying the upstream's raw text |
| Http.UnreachableIsInternalError | src/endpoints/openai.js:322-325 | a `fetch` that rejects ends in the catch-all 500 "Internal server error", for audio and JSON relays alike |
| Caption.SelectKey | src/endpoints/openai.js:17-86 | the key, the custom headers and the body parameters chosen by the provider ladder equal the specification `CaptionKey` / `CaptionParams` |
| Caption.AssembleBody | src/endpoints/openai.js:94-118 | the initial body is the model, the single user turn, the provider's extra parameters, the system lead when one is configured, and the custom body merged then excluded |
| Caption.ResolveEndpoint | src/endpoints/openai.js:120-182 | the URL and provider headers follow the per-provider ladder, and the reverse proxy wins where it is honoured |
| Caption.AdaptMessages | src/endpoints/openai.js:144-195 | the Groq system turn is demoted to a user turn, and the text-generation-webui turn is reshaped into text then image turns |
| Caption.PrepareCaption | src/endpoints/openai.js:15-208 | the whole handler before the network: it refuses (400) or sends exactly the call that `CaptionPlan` describes |
| Caption.RejectExactlyWhenKeyMissing | src/endpoints/openai.js:88-92 | the caption request is refused with 400 if and only if no key was found, no proxy password applies, and the provider needs a key |
| Caption.NeverRejectedWithProxyOrKeylessProvider | src/endpoints/openai.js:88-92 | a proxied request, or one to a provider needing no key, is never refused |
| Caption.ProxySkipsDirectSecret | src/endpoints/openai.js:21-35 | with a reverse proxy, the proxy password is the key and the direct secret is not read |
| Caption.OwnSecretWins | src/endpoints/openai.js:37-86 | without a proxy, each provider uses its own secret |
| Caption.ProxyRedirects | src/endpoints/openai.js:120-182 | a proxied request for a proxyable provider goes to the proxy URL; the others keep their fixed URLs |
| Caption.SentMessagesExpected | src/endpoints/openai.js:94-195 | the messages actually sent equal the per-dialect expected messages |
| Caption.ExpectedMessagesShape | src/endpoints/openai.js:94-195 | every dialect sends the prompt and the image; only a system lead may precede them |
| Caption.BuiltInBodyFields | src/endpoints/openai.js:47-106 | the built-in body holds exactly model and messages (plus temperature 0.1 for ooba), with the caller's model |
| Caption.CustomBodyMerge | src/endpoints/openai.js:94-118 | custom-body keys override built-in ones; the sent body has exactly the merged keys minus the excluded ones, with the merged values (messages aside when a system prompt is inserted); with a system prompt and `messages` not excluded, the sent `messages` is the system turn followed by the merged list; a non-list included `messages` fails exactly when a system prompt is configured |
| Caption.HeaderPrecedence | src/endpoints/openai.js:197-208 | provider and additional headers override the JSON defaults, and additional headers override provider ones |
| Caption.PollinationsBlankAuthorization | src/endpoints/openai.js:162-166 | Pollinations goes to its fixed URL with an empty Authorization header unless the additional headers override it |
| Caption.ExtractCaptionShapes | src/endpoints/openai.js:219 | the caption is read from `choices[0].message.content` (an array element, or an object's `"0"` property) or else from `message.content[0].text` |
| Caption.CaptionResultCases | src/endpoints/openai.js:210-230 | `{caption}` exactly when the call succeeded, parsed and gave a truthy caption; 500 "No caption found" for a falsy caption; 500 with the upstream text on failure; 500 "Internal server error" for an unreachable upstream or an unparsable reply; the refusal status for a refused request |
| Speech.OpenAiSpeechDefaults | src/endpoints/openai.js:281-300 | refused with 400 exactly without a key; otherwise sent to the speech URL with the bearer key, `input` is `body.text`, the format is mp3, voice, speed and model default to alloy, 1 and tts-1 when nullish, and `instructions` is the caller's, sent only when truthy |
| Speech.ElectronHubSpeechBody | src/endpoints/openai.js:338-365 | the imperatively built ElectronHub body equals the `ElectronHubBody` specification |
| Speech.HubLiteral | src/endpoints/openai.js:338-345 | the literal carries the fixed fields, each typed as the source types it |
| Speech.HubTypedFields | src/endpoints/openai.js:338-354 | after the optional parameters are copied, every fixed field still has its specified value |
| Speech.CopyWhen | src/endpoints/openai.js:348-354 | an optional parameter is copied exactly when its test holds, and nothing else changes |
| Speech.ForwardOtherKeys | src/endpoints/openai.js:356-362 | every caller key that is not a known one and is not undefined is forwarded, with its value |
| Speech.DropUndefined | src/endpoints/openai.js:364-365 | exactly the undefined entries are removed, and the rest are unchanged |
| Speech.PrepareElectronHubSpeech | src/endpoints/openai.js:329-377 | 400 without an ElectronHub key; otherwise a POST carrying the specified body |
| Speech.HubContentType | src/endpoints/openai.js:384 | the audio content type is the upstream's when it answered with a non-empty one, else `audio/mpeg`; it is never empty |
| Speech.ElectronHubFixedFields | src/endpoints/openai.js:338-365 | no sent field is undefined, the format is mp3, the model is the caller's when truthy and `tts-1` otherwise, speed defaults to 1, and temperature is sent iff given non-null |
| Speech.ElectronHubForwardsUnknown | src/endpoints/openai.js:356-365 | an unknown key is sent exactly when the caller gave it a defined value, and then unchanged |
| Speech.CustomSpeechContract | src/endpoints/openai.js:462-485 | refused with 400 exactly when the endpoint is falsy, a failure when it is not a string; otherwise posted there with the token `key ?? ''` and exactly the five fields, each the caller's unless nullish, else `''`, mp3, alloy, 1 or tts-1 |
| Media.TranscriptionPlan | src/endpoints/openai.js:233-262 | refused with 400 exactly when the OpenAI key or the upload is missing; otherwise posted with the bearer token |
| Media.TranscriptionCleanup | src/endpoints/openai.js:264-273 | the temporary upload is removed exactly when the call was made and answered ok, and the transcription is relayed; an unreachable upstream gives the 500 "Internal server error" |
| Media.TranscriptionFormFields | src/endpoints/openai.js:247-254 | the form carries the file and the model, and the language only when it is truthy |
| Media.ImagePlan | src/endpoints/openai.js:426-444 | refused with 400 exactly when the key is missing; otherwise the caller's body is posted unchanged |
| Media.ModelListPlan | src/endpoints/openai.js:395-411 | refused with 400 exactly when the key is missing; otherwise a GET carrying only the Authorization header, `Bearer` and the ElectronHub key |
| Media.ModelsFrom | src/endpoints/openai.js:418 | the result is always a list: `data.data` when it is an array, else `[]` |
| Media.ModelListAlwaysList | src/endpoints/openai.js:413-419 | a successful model-list reply is always a JSON list |
| Announcements.LoadFrom | src/endpoints/announcements.js:20-34 | a missing or unreadable file loads as the empty list |
| Announcements.FindIndex | src/endpoints/announcements.js:126 | the result is -1 exactly when no id matches; otherwise it is the first matching index |
| Announcements.EnabledOnly | src/endpoints/announcements.js:71-73 | each record is listed as current as many times as it is stored when its enabled is truthy, and never otherwise |
| Announcements.EnabledOnlyKeepsOrder | src/endpoints/announcements.js:71-73 | the current announcements are a subsequence of the stored ones |
| Announcements.AnnouncementStore.Create | src/endpoints/announcements.js:83-117 | 400 without title or content; 500 on a non-string title or content or a failed write; otherwise the new record is prepended, saved only when the write succeeds, and returned; over a missing or unreadable file the saved list is the new record alone |
| Announcements.AnnouncementStore.Update | src/endpoints/announcements.js:120-153 | 404 for an unknown id; otherwise the first match is patched, saved only when the write succeeds, and returned |
| Announcements.AnnouncementStore.Delete | src/endpoints/announcements.js:156-180 | 404 for an unknown id; otherwise the first match is removed and the rest are kept in order |
| Announcements.AnnouncementStore.Toggle | src/endpoints/announcements.js:183-208 | 404 for an unknown id; otherwise the first match's enabled flag is negated |
| Announcements.BlankTitleStoredEmpty | src/endpoints/announcements.js:87-97 | a whitespace-only title passes the required check and is stored as the empty string |
| Announcements.NewRecordDefaults | src/endpoints/announcements.js:94-105 | a new record is enabled unless `enabled` is `false`, its type defaults to info when falsy, it is created and updated at the same instant, and it has no updater |
| Announcements.PatchedKeepsTheRest | src/endpoints/announcements.js:128-141 | an update changes only the given fields and the update stamp; id and creation data are kept |
| Announcements.DeleteRemovesFirstMatch | src/endpoints/announcements.js:160-168 | deleting removes one record, the first with the id, and shortens the list by one |
| Announcements.WithoutIsSubsequence | src/endpoints/announcements.js:168 | the list after a delete is a subsequence of the list before it |
| Announcements.ToggleTwice | src/endpoints/announcements.js:187-196 | toggling twice finds the same record and restores its truthiness, and restores a boolean flag exactly |
| Register.FirstFailing | public/scripts/register.js:78-113 | the result is none iff no check fails; otherwise it is the earliest failing check |
| Register.FirstFailureChain | public/scripts/register.js:78-113 | the submit check is the if-chain of required, handle, length, match and invitation, in that order |
| Register.MessageBox.ShowError | public/scripts/register.js:216-222 | the box is shown, in error style, with the message |
| Register.MessageBox.Hide | public/scripts/register.js:232-234 | the box is hidden, and its text and style are kept |
| Register.ValidateForm | public/scripts/register.js:78-113 | submit is allowed iff no check fails; otherwise the box shows the first failure's message |
| Register.AcceptedExactly | public/scripts/register.js:83-110 | a form is accepted exactly when all the conditions hold: the fields are filled, the handle pattern matches, the password is at least 6 long, the passwords match, and a code is given when the invitation field is shown |
| Register.EarliestFailureReported | public/scripts/register.js:78-113 | the reported failure fails, and every earlier check passes |
| Register.BlankHandleMissing | public/scripts/register.js:35-41 | a whitespace-only handle is reported as a missing field, because the handle is trimmed |
| Register.SpacesArePassword | public/scripts/register.js:35-41 | passwords are not trimmed, so six spaces are an acceptable password |
| Register.InvitationOnlyWhenShown | public/scripts/register.js:107-110 | an empty code fails only when the invitation field is displayed |
| Register.LiveMark | public/scripts/register.js:115-131 | an empty field is left unmarked; otherwise it is marked valid or invalid |
| Register.TextInput.SetMark | public/scripts/register.js:119-130 | the input's valid and invalid marks become the given mark, and its value is kept |
| Register.ValidateHandle | public/scripts/register.js:115-131 | the trimmed handle is marked according to the handle pattern, and never both valid and invalid |
| Register.ValidatePassword | public/scripts/register.js:133-155 | the password is marked by its length (no class when empty, otherwise exactly one of `valid`/`invalid`), and the confirmation is re-checked, with never both classes, when both are filled |
| Register.ValidateConfirmPassword | public/scripts/register.js:157-174 | the confirmation is marked by equality with the password |
| Register.LiveAgreesWithSubmit | public/scripts/register.js:78-174 | an accepted form shows all three live marks as valid |
| InvitationCodes.InvitationStore.Call | src/endpoints/invitation-codes.js:1-12 | every store call is recorded, and its answer is determined by the history |
| InvitationCodes.CreatedBy | src/endpoints/invitation-codes.js:36 | the creator is the profile handle, else the user handle, else "admin"; it is always truthy |
| InvitationCodes.Status | src/endpoints/invitation-codes.js:155-163 | always 200 with the single field `enabled`, truthy exactly when the feature is on |
| InvitationCodes.ListCodes | src/endpoints/invitation-codes.js:14-26 | when disabled, 200 `{enabled: false, codes: []}` without a store call; otherwise one list call, answered with the codes or 500 "Failed to get invitation codes" |
| InvitationCodes.CreateCode | src/endpoints/invitation-codes.js:29-44 | 400 when disabled, without a store call; otherwise one mint with the creator and expiry, answered with the code or a 500 carrying the thrown message or the fallback |
| InvitationCodes.Ceil | src/endpoints/invitation-codes.js:60 | the ceiling is the least integer not below the input |
| InvitationCodes.LoopTest | src/endpoints/invitation-codes.js:60 | the loop test `i < count` holds exactly for the first `Iterations(count)` indices |
| InvitationCodes.Minted | src/endpoints/invitation-codes.js:60-64 | the history after k mints is the old history followed by k copies of the call |
| InvitationCodes.MintedCodes | src/endpoints/invitation-codes.js:60-64 | the j-th code is the store's answer after j earlier mints |
| InvitationCodes.BatchCreated | src/endpoints/invitation-codes.js:66-70 | the reply's count equals the number of codes returned |
| InvitationCodes.BatchCreate | src/endpoints/invitation-codes.js:47-75 | 400 when disabled; 400 for a count that is falsy, below 1 or above 100; otherwise the store is called once per iteration and the codes are returned, or it stops at the first throw with a 500 |
| InvitationCodes.WholeCounts | src/endpoints/invitation-codes.js:56-61 | a whole count from 1 to 100 makes exactly that many codes; any other whole count is refused |
| InvitationCodes.InRangeCountsRoundUp | src/endpoints/invitation-codes.js:56-61 | any count converting to a number from 1 to 100 passes and makes that number rounded up; any other number is refused |
| InvitationCodes.NonNumericCountMakesNone | src/endpoints/invitation-codes.js:56-61 | every truthy count that converts to NaN passes the guard and makes no code |
| InvitationCodes.TruthyNonNumericCounts | src/endpoints/invitation-codes.js:56 | "abc", {} and [null, null] are such counts |
| InvitationCodes.DeleteCode | src/endpoints/invitation-codes.js:78-96 | 400 when disabled; 404 when the store reports nothing deleted; otherwise success |
| InvitationCodes.DeleteRunAccounting | src/endpoints/invitation-codes.js:111-132 | the deleted count plus the number of errors equals the number of codes, and one store call is made per code |
| InvitationCodes.BatchDelete | src/endpoints/invitation-codes.js:99-137 | 400 when disabled; 400 for a missing or empty list; otherwise the loop's result equals the `DeleteRun` specification |
| InvitationCodes.BatchDeleteSummary | src/endpoints/invitation-codes.js:127-132 | errors are reported only when at least one code failed, and the total equals the request size |
| InvitationCodes.CleanupCodes | src/endpoints/invitation-codes.js:140-152 | 400 when disabled; otherwise one cleanup call, its count reported or 500 "Failed to cleanup invitation codes" |

## Left out

The source deletes the temporary transcription upload only after the upstream
answers ok (`src/endpoints/openai.js:264-271`). A refused call and a failed call
both leave the upload on disk. The model follows the code, so a stated
"always released" rule would not hold for it.

- Network I/O:
  - `fetch`, its headers object and multipart encoding are modelled as a described call plus an upstream `Reply` input;
  - a `fetch` that rejects is the `Unreachable` reply, which every handler turns into the catch-all 500 "Internal server error"; the kind of network error is not modelled;
  - audio bytes, stream contents and `formData.getHeaders()` are not modelled;
  - concurrency between requests and `async` interleavings are not modelled.
- Logging: `console.*` calls have no effect on responses and are not modelled.
- JSON serialisation:
  - key order is not modelled, because maps are unordered;
  - announcement replies drop undefined fields as `JSON.stringify` does (`Announcements.ToJson`), and so does the ElectronHub speech body (`Speech.DropUndefined`); the bodies of other outgoing calls keep their `Undefined` entries, which the serialiser would omit;
  - string interpolation of non-string values inside messages is not modelled.
- Numbers:
  - numbers are exact reals, so IEEE-754 rounding is not modelled;
  - `Number(...)` on strings handles optional sign, digits, one dot and surrounding whitespace;
  - exponent, hexadecimal, octal and binary literals are not parsed.
- External helpers:
  - `readSecret` is a map lookup returning an option;
  - `getConfigValue`, `trimV1` and `setAdditionalHeaders` become inputs. The extra headers are a function of the URL;
  - `mergeObjectWithYaml` takes an already-parsed map of fields, and `excludeKeysByYaml` an already-parsed set of keys to delete (`util.js` is not part of this model). A YAML parse failure is not modelled.
- Caption: an absent `server_url`, `reverse_proxy` or `proxy_password` is taken as the empty string. The source's `"undefined"` URL text for a missing `server_url` is not modelled.
- Caption.AdaptMessages: applies the Groq and text-generation-webui message edits after the URL ladder. The source does the Groq edit inside that ladder. The two orders give the same body, because the ladder reads no message.
- Speech.CustomSpeechContract: a non-string `provider_endpoint` is modelled as a failed call (500). The string it would coerce to is not modelled.
- Announcements:
  - file I/O, `ensureAnnouncementsDirectory` and the JSON file format are not modelled;
  - the result of a write is a `saved` input;
  - a file that parses to something other than a list is not modelled;
  - a stored list element that is not an announcement object (such as `null` in `[null]`, on which the enabled filter throws a `TypeError`) is not modelled: every stored element is an `Announcement` record;
  - ids and timestamps are inputs, because they come from `Date.now()`;
  - authentication middleware (`requireAdminMiddleware`) is not modelled.
- Invitation codes:
  - the code store (`invitation-codes` user module) is not part of this model, and its answers are an arbitrary function of the call history;
  - the batch-delete error entries are kept structured (code and reason) rather than as the formatted strings;
  - the batch-delete reply's constant `success: true` field is not carried by `BatchDeleteReply.Summary`, which holds only the counts and the errors.
- Registration page:
  - DOM plumbing, CSRF token fetching, `submitRegistration`, `setLoading`, `showSuccess` and `checkInvitationCodeStatus` are not modelled;
  - whether the invitation field is displayed is an input.
- `Element` (`v?.[i]`) indexes a string by character, not by UTF-16 code unit, so it differs for characters outside the Basic Multilingual Plane.
- `test-public-characters.js` is not part of this model.
