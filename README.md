# Chat webapp core in Dafny

This project models the core of a Firebase chat web application: a Vue client and a set of
Cloud Functions that share one Firestore database. Three parts are modelled.

- **Server triggers.** These are the Cloud Functions that react to document writes:
  - a new message fans out to the other members' userChats, with unread counts, a push
    notification and the message's files and links;
  - group chats get system messages and per-member userChats when they are created or
    updated;
  - leaving or deleting a group cleans up;
  - a deleted userChat is followed up: when it is the group creator's, the group and every
    member's userChat are deleted; when it is a private chat's and the other member has no
    userChat left, the chat is deleted;
  - a user's token carries their username as the one custom claim, `{username}`, set at
    sign-in and again when the profile's username changes.

  The database is the immutable datatype `Firestore.Store`, one field per collection. The
  triggers that loop (`onMessageCreated`, `onChatCreated`, `onChatUpdated` and
  `onUserChatDeleted`) are methods over it that return the new store, each proved equal to
  an effect function. The loop-free entry points (`leaveGroup`, `setTokenClaimsBeforeUserSignedIn` and
  `setTokenClaimsAfterUserUpdate`) are functions of the store. Lemmas state what each
  effect does: which documents change, how they change, and that nothing else changes.
- **Client stores.** These are `ChatStore` (the reconciler of `src/stores/chats.ts`),
  `CurrentUserStore` and `UserStore`. They are classes whose fields the methods update in
  place, and each method is proved against a function of the old state.
- **Converters and utilities.** These are the entity converters (`src/models/*`,
  `src/services/entit*`), the two message services and the utilities in `src/utils`. They
  are functions with lemmas: round trips, idempotence, bounds and reference definitions.

JavaScript objects are maps from keys to `Js.Value` (module `Js`), so that spreads, `omit`,
`||` defaulting and absent or `undefined` keys read as they do in the source. A write that
holds an `undefined` field is refused: the Admin SDK is initialised without
`ignoreUndefinedProperties`, so the server triggers abort there (`Aborted`), and the
client's `setDoc` fails the same way. Strings are sequences of Unicode scalar values;
`Js.Utf16` gives the UTF-16 code units that `length`, `charCodeAt` and `substring` work on.
The clock, the push transport, the URL parser and the profile lookup are parameters.

## Model

| member | source | states |
|---|---|---|
| DateTime.DateToUtcTimestamp | src/utils/datetime.ts:2-4 | the seconds value t satisfies t*1000 <= ms < t*1000+1000: the floor, for dates before 1970 as well |
| DateTime.NowToUtcTimestamp | src/utils/datetime.ts:7-9 | the same floor bound against the clock's milliseconds |
| DateTime.UtcTimestampToLocalDate | src/utils/datetime.ts:12-14 | the date is a whole number of seconds, and that number is the timestamp |
| DateTime.SecondsRoundTrip | src/utils/datetime.ts:2-14 | seconds to date and back gives the same seconds |
| DateTime.DateRoundTrip | src/utils/datetime.ts:2-14 | date to seconds and back drops only the sub-second part and never moves later |
| DateTime.FloorBeforeEpoch | src/utils/datetime.ts:3 | -1 ms and -1000 ms give -1 s and -1001 ms gives -2 s: the division rounds down, not toward zero |
| Files.StripQuery | src/utils/files.ts:11 | the longest prefix without '?': a prefix of the input, followed by '?' when shorter |
| Files.GetFileExtension | src/utils/files.ts:9-19 | a suffix of the query-free name after a '.', holding no '.' or '?'; empty exactly when there is no dot or the dot is last |
| Files.ExtensionOf | src/utils/files.ts:9-19 | stem + "." + ext gives ext, with or without a "?query" after it |
| Files.FileNameExample | src/utils/files.ts:6 | "example.txt" gives "txt" |
| Uid.GenerateFirestoreId | src/utils/uid.ts:14-21 | 20 characters, the i-th being the (byte_i mod 62)-th of the 62 letters and digits |
| Errors.ErrorKey | src/utils/errors.ts:44 | for an error whose properties can be read, the key is the code when it is truthy, else the message when that is truthy; a thrown non-error value other than undefined and null is its own key |
| Errors.Lookup | src/utils/errors.ts:45 | a mapped key gives its detail, anything else the default detail |
| Errors.NotifyError | src/utils/errors.ts:43-51 | a thrown undefined or null gives no notice, because reading its code throws a TypeError; any other error shows the title and description looked up from the key, for 5000 ms |
| Errors.SixDistinctCodes | src/utils/errors.ts:16-41 | the six mapped codes have six different titles, and none of them is the default detail |
| Errors.CodeDecides | src/utils/errors.ts:43-51 | an error with a non-empty code shows that code's title whatever its message, or the default title for an unknown code |
| Keywords.GenerateKeywords | src/utils/keywords.ts:1-10 | |name|-2 keywords (none for a shorter name), the k-th being the first k+3 characters of the lower-cased name |
| Keywords.KeywordsOfIsGenerated | src/utils/keywords.ts:1-10 | the keyword list is determined by that description: any list meeting it is the specification's |
| Keywords.DistinctIsSet | src/utils/keywords.ts:17-28 | the Set read back has no duplicates and holds exactly the elements added |
| Keywords.DistinctOfPrefix | src/utils/keywords.ts:17-28 | adding more elements to the Set only extends the order read back |
| Keywords.AddAll | src/utils/keywords.ts:20 | adding a keyword list to the Set gives the Set of everything added so far, in first-insertion order |
| Keywords.Spellings | src/utils/keywords.ts:19-26 | three names when lastName is non-empty, two otherwise, the username last |
| Keywords.GenerateUserKeywords | src/utils/keywords.ts:12-29 | no user gives undefined; otherwise the Set of the keywords of the spellings, in insertion order |
| Keywords.UserKeywordsAreNamePrefixes | src/utils/keywords.ts:17-28 | user keywords are distinct, and each is a lower-cased prefix, of at least 3 characters, of one of the spellings |
| Avatars.Hash | src/utils/avatars.ts:2-9 | the hash is a signed 32-bit integer, folded over the UTF-16 code units, and 0 for the empty string |
| Avatars.HashStep | src/utils/avatars.ts:5-6 | (h << 5) - h + c followed by |0 is 31*h + c wrapped to a signed 32-bit integer |
| Avatars.HashString | src/utils/avatars.ts:2-9 | the loop over the string's UTF-16 code units (charCodeAt up to length) computes the specified hash of the whole string |
| Avatars.HashIsWrappedPolynomial | src/utils/avatars.ts:2-9 | wrapping at every step equals wrapping once: the hash is the base-31 polynomial of the code units, modulo 2^32, read as signed |
| Avatars.AstralCharHashesSurrogates | src/utils/avatars.ts:4-5 | a character outside the Basic Multilingual Plane is hashed as its two surrogates: the hash of U+1F600 is 31*0xD83D + 0xDE00 |
| Avatars.HashToChannels | src/utils/avatars.ts:13-15 | three bytes that together spell the low 24 bits of the hash's two's-complement form |
| Avatars.HashToColor | src/utils/avatars.ts:12-17 | the colour has the CSS form "rgb(" ... ")", at least 12 characters long |
| Avatars.RgbTextInjective | src/utils/avatars.ts:16 | the template "rgb(r, g, b)" is injective on channel triples: different channels give different text |
| Avatars.SameColorIffLowBits | src/utils/avatars.ts:12-17 | two hashes give the same colour exactly when the low 24 bits of their 32-bit forms agree: the masks and shifts keep those bits and nothing else |
| Avatars.GenerateDisplayName | src/utils/avatars.ts:35-41 | no params give ""; a truthy last name gives "first last", otherwise the first name alone |
| Avatars.SplitWhitespace | src/utils/avatars.ts:45 | at least one piece, the first being the text up to the first whitespace |
| Avatars.GenerateInitials | src/utils/avatars.ts:44-49 | throws (None) exactly when the trimmed name is empty; otherwise one or two characters, the first being the ASCII upper-cased first character |
| Avatars.InitialsOfDisplayName | src/utils/avatars.ts:35-49 | for names without whitespace, the initials of the display name are the upper-cased first letters of first and, when present, last name |
| Avatars.SecondWordNonEmpty | src/utils/avatars.ts:45-47 | in a trimmed text the second piece of the split is never empty, so names[1][0] exists |
| Avatars.SplitOfTwoWords | src/utils/avatars.ts:45 | two words joined by a space trim to themselves and split back into the two words |
| Validations.ValidateEmail | src/utils/validations.ts:1-4 | true exactly when some split into local part, domain and top-level domain matches the pattern |
| Validations.CandidateSplit | src/utils/validations.ts:2 | any matching split is at the first '@' and the last '.' |
| Validations.PatternUsesCandidate | src/utils/validations.ts:2 | a matching address matches at the first '@' and the last '.' |
| Validations.AcceptedEmailShape | src/utils/validations.ts:2 | an accepted address has exactly one '@', no whitespace, and at least two letters after its last '.' |
| Validations.ContainsUppercase | src/utils/validations.ts:6-9 | true exactly when some character is A-Z |
| Validations.ContainerLowercase | src/utils/validations.ts:11-14 | true exactly when some character is a-z |
| Links.SchemeEnd | src/utils/links.ts:3 | a scheme is found exactly when "https://", "http://", "ftp://" or "file://" starts there, case-insensitively; it ends in "://" |
| Links.BodyRunEnd | src/utils/links.ts:3 | the end of the longest run of characters the body class admits |
| Links.BackOff | src/utils/links.ts:3 | the greedy run backs off to its last character of the final class |
| Links.MatchAt | src/utils/links.ts:3 | a match at a position ends after it and within the text |
| Links.MatchAtShape | src/utils/links.ts:3 | a match starts at a word boundary with a scheme, holds only body characters, ends on a final-class character and is the longest such; no match means no boundary, no scheme or no final-class character in the run |
| Links.NoMatchUnchanged | src/utils/links.ts:6-8 | text in which no position starts a URL is returned unchanged |
| Links.FirstMatch | src/utils/links.ts:6-8 | the text before the first URL is kept, the URL is wrapped in an anchor, and the rest is reformatted after it |
| Links.TrailingPunctuationExcluded | src/utils/links.ts:3-8 | "https://..." followed by "." becomes an anchor for the URL followed by the "." |
| Messages.GetChatById | cloud_functions/functions/src/messages.ts:89-110 | the chat is found exactly when its document exists, and it is that document |
| Messages.Recipients | cloud_functions/functions/src/messages.ts:51 | the members other than the sender, and no one else |
| Messages.GetOrCreateUserChat | cloud_functions/functions/src/messages.ts:112-130 | an existing userChat is returned and nothing is written; a missing one is created with one unread message and createdAt = updatedAt = now |
| Messages.CountUnreadLoop | cloud_functions/functions/src/messages.ts:53-64 | the member loop leaves the userChats of the fold CountUnread and changes nothing else |
| Messages.CountUnreadEffect | cloud_functions/functions/src/messages.ts:53-64 | each recipient's userChat of the chat is bumped (unread + 1, updatedAt = now) or created; every other userChat is unchanged |
| Messages.SenderOnlyTouched | cloud_functions/functions/src/messages.ts:47-49 | the sender's userChat gets only updatedAt = now, and its unread count stays |
| Messages.Truncate | cloud_functions/functions/src/messages.ts:219-221 | a text of at most 100 UTF-16 code units is kept; a longer one becomes a prefix of it followed by "...", at most 100 units in all, the prefix being the longest one of at most 97 units |
| Messages.TruncateBmp | cloud_functions/functions/src/messages.ts:219-221 | for text inside the Basic Multilingual Plane, one code unit per character, a text longer than 100 becomes its first 97 characters and "..." |
| Messages.DisplayName | cloud_functions/functions/src/messages.ts:210-216 | "first last" when the last name is truthy, otherwise the first name |
| Messages.NotificationBody | cloud_functions/functions/src/messages.ts:218-228 | a private chat's body is the truncated text; a group's is "name: " and the truncated text; the truncated text is at most 100 code units |
| Messages.GroupBodyNamesSender | cloud_functions/functions/src/messages.ts:218-228 | a group body for a text of at most 100 code units is the sender's display name, ": " and the whole text |
| Messages.SendMessageNotification | cloud_functions/functions/src/messages.ts:136-208 | the notification loop, multicast and token cleanup compute the effect NotificationEffect |
| Messages.MissingSenderDeletesNothing | cloud_functions/functions/src/messages.ts:160-165 | when the sender's document is missing, nothing is sent and no token is deleted, the expired ones included |
| Messages.LastDotPiece | cloud_functions/functions/src/messages.ts:251 | the suffix after the last '.', or the whole path when it has no '.' |
| Messages.IsMediaFile | cloud_functions/functions/src/messages.ts:246-258 | a URL the parser rejects is not media; otherwise media exactly when the lower-cased last piece of its path is one of the eleven extensions |
| Messages.MediaByExtension | cloud_functions/functions/src/messages.ts:241-253 | a path ending in ".ext" is media exactly when ext, lower-cased, is a media extension |
| Messages.FileRecords | cloud_functions/functions/src/messages.ts:231-238 | one file record per attachment URL, in order, with its media flag and the time |
| Messages.SaveFiles | cloud_functions/functions/src/messages.ts:230-239 | the chat's files gain those records at the end; other chats' files and every other collection are unchanged |
| Messages.SaveAttachmentFiles | cloud_functions/functions/src/messages.ts:230-239 | the loop over the attachments computes SaveFiles |
| Messages.RunEnd | cloud_functions/functions/src/messages.ts:273 | the end of the run of non-whitespace characters |
| Messages.UrlsFrom | cloud_functions/functions/src/messages.ts:273-274 | every extracted URL starts with "https://", has something after it and holds no whitespace |
| Messages.ExtractUrls | cloud_functions/functions/src/messages.ts:272-275 | the same for the whole text; no match gives the empty list, not null |
| Messages.NoSchemeNoUrls | cloud_functions/functions/src/messages.ts:274 | text without "https://" yields no URL |
| Messages.WholeUrl | cloud_functions/functions/src/messages.ts:273 | "https://" followed by non-whitespace is extracted whole |
| Messages.NextMatch | cloud_functions/functions/src/messages.ts:272-275 | when q is the first position at or after p where "https://" and a non-whitespace character start, the URLs from p are the run from q to the next whitespace, followed by the URLs from the end of that run: leftmost, greedy, in order and never overlapping |
| Messages.NoUrlsIffNoMatch | cloud_functions/functions/src/messages.ts:272-275 | no URL is found from p on exactly when no match starts there |
| Messages.JoinedByWhitespace | cloud_functions/functions/src/messages.ts:273 | the URLs of two texts joined by a whitespace character are the first text's followed by the second's |
| Messages.LinkRecords | cloud_functions/functions/src/messages.ts:263-269 | one link record per URL, in order |
| Messages.SaveLinks | cloud_functions/functions/src/messages.ts:261-270 | the chat's links gain one record per extracted URL at the end; nothing else changes |
| Messages.SaveMessageLinks | cloud_functions/functions/src/messages.ts:261-270 | the loop over the links computes SaveLinks |
| Messages.SaveRecords | cloud_functions/functions/src/messages.ts:69-77 | saving attachments and links writes only files and links |
| Messages.OnMessageCreated | cloud_functions/functions/src/messages.ts:12-78 | the trigger computes MessageCreatedEffect: the store, the multicast sent and whether it threw; links are saved only for a text of at least 12 UTF-16 code units |
| Messages.LinkGuardCountsCodeUnits | cloud_functions/functions/src/messages.ts:75 | the guard counts code units, not characters: "\U{1F600} https://x" has 11 characters and length 12, so it passes |
| Messages.SkippedMessagesWriteNothing | cloud_functions/functions/src/messages.ts:22-44 | a system message, or a message whose chat is missing, writes nothing and sends nothing |
| Messages.MessageCreatedFrame | cloud_functions/functions/src/messages.ts:12-78 | a new message never changes chats, users, messages, pinned messages, system messages, refresh times or claims |
| Messages.FanOutOnly | cloud_functions/functions/src/messages.ts:47-77 | a handled message changes only userChats, tokens, files and links |
| Messages.NotificationFrame | cloud_functions/functions/src/messages.ts:136-208 | the notification step changes only tokens |
| Messages.UnreadAccounting | cloud_functions/functions/src/messages.ts:46-64 | the sender's userChat gets updatedAt only; each other member's is bumped or created with one unread; every other userChat is unchanged |
| Messages.UserChatsAfterMessage | cloud_functions/functions/src/messages.ts:66-77 | the notification, files and links steps leave the userChats of the unread step unchanged |
| Messages.RecipientsDistinct | cloud_functions/functions/src/messages.ts:51 | filtering keeps a duplicate-free member list duplicate-free |
| Notifications.UserTokens | cloud_functions/functions/src/notifications.ts:43-51 | one entry per token document of the recipient, in collection order, tagged with the recipient |
| Notifications.TokenIds | cloud_functions/functions/src/notifications.ts:65 | the i-th token sent is the i-th collected token |
| Notifications.WithoutToken | cloud_functions/functions/src/notifications.ts:87 | keeps exactly the token documents with another id |
| Notifications.DeleteToken | cloud_functions/functions/src/notifications.ts:87 | removes that token id from that user's tokens; other users' tokens and other collections are unchanged |
| Notifications.CollectTokens | cloud_functions/functions/src/notifications.ts:36-52 | the recipient loop collects every recipient's tokens, recipient by recipient, and queues the expired ones |
| Notifications.CollectUserTokens | cloud_functions/functions/src/notifications.ts:43-51 | the per-document loop collects one recipient's tokens and queues its expired ones |
| Notifications.QueueRejected | cloud_functions/functions/src/notifications.ts:69-80 | after the expired tokens, allTokens[idx] is queued for every rejected response, in response order |
| Notifications.RemoveTokens | cloud_functions/functions/src/notifications.ts:83-89 | the delete loop removes every queued token, one after the other |
| Notifications.SendNotification | cloud_functions/functions/src/notifications.ts:32-90 | a multicast of all collected token ids with the payload is sent exactly when there are tokens and the sender's document exists; a missing sender leaves the store as it was, otherwise the expired and the rejected tokens are deleted |
| Notifications.CollectedTokensExist | cloud_functions/functions/src/notifications.ts:36-51 | every collected token belongs to a recipient and is one of that recipient's token documents |
| Notifications.ExpiredAreCollected | cloud_functions/functions/src/notifications.ts:43-51 | an expired token is also sent to |
| Notifications.ExpiredOfIff | cloud_functions/functions/src/notifications.ts:45 | a token is queued as expired exactly when its createdAt is older than 30 days (strictly); a token without createdAt never is |
| Notifications.RejectedIff | cloud_functions/functions/src/notifications.ts:69-80 | a token is queued from the responses exactly when its response failed with the unregistered or the invalid-argument code |
| Notifications.DeleteTokensEffect | cloud_functions/functions/src/notifications.ts:83-89 | after the deletes, a token document remains exactly when it was not queued; only the tokens change |
| Notifications.NoTokensNoEffect | cloud_functions/functions/src/notifications.ts:54 | when no recipient has a token, nothing is queued and the store is unchanged |
| Chats.AddMembersLoop | cloud_functions/functions/src/chats.ts:29-32 | the "added" loop computes the fold AddMembers |
| Chats.RemoveMembersLoop | cloud_functions/functions/src/chats.ts:97-101 | the "removed" loop computes the fold RemoveMembers |
| Chats.AddedRecords | cloud_functions/functions/src/chats.ts:30 | one "member added" message per member, in order, naming that member |
| Chats.RemovedRecords | cloud_functions/functions/src/chats.ts:99 | one "member removed" message per member, in order, naming that member |
| Chats.AddMembersMessages | cloud_functions/functions/src/chats.ts:88-92 | adding members writes only system messages and userChats; the chat gets the "added" messages in member order, other chats none |
| Chats.RemoveMembersMessages | cloud_functions/functions/src/chats.ts:97-101 | removing members writes only system messages and userChats; the chat gets the "removed" messages in member order, other chats none |
| Chats.AddMembersUserChats | cloud_functions/functions/src/chats.ts:46-53 | every added member's userChat of the chat is set to one unread, not starred, created now, without updatedAt; every other userChat is unchanged |
| Chats.RemoveMembersUserChats | cloud_functions/functions/src/chats.ts:104-106 | every removed member's userChat of the chat is deleted; every other userChat is unchanged |
| Chats.OnChatCreated | cloud_functions/functions/src/chats.ts:10-44 | the trigger computes ChatCreatedEffect, which aborts with nothing written when a group has no name |
| Chats.ChatCreatedMessages | cloud_functions/functions/src/chats.ts:24-32 | a new group without a name aborts with nothing written; a named group with a creator gets "group created" and then one "member added" per member other than the creator, in order |
| Chats.ChatCreatedUserChats | cloud_functions/functions/src/chats.ts:24-32 | a new named group gives every member except the creator a new userChat with one unread message; every other userChat is unchanged, and a group without a name changes none |
| Chats.CreatorlessGroupAborts | cloud_functions/functions/src/chats.ts:24-28 | a group with members but no createdBy throws in the filter, after the "created" message when it is named and before it when not: no userChat, no notification |
| Chats.NotifiedKeepsRest | cloud_functions/functions/src/chats.ts:34-43 | the group notification deletes tokens and changes nothing else |
| Chats.Missing | cloud_functions/functions/src/chats.ts:85-87 | the members of the first list that are not in the second |
| Chats.NothingMissing | cloud_functions/functions/src/chats.ts:85-96 | nothing is missing from a list that holds every member |
| Chats.AfterChangesFrame | cloud_functions/functions/src/chats.ts:75-83 | the rename and image messages change no userChat; they complete exactly when neither a changed name nor a changed image is removed, and a removed one aborts before its message is written |
| Chats.OnChatUpdated | cloud_functions/functions/src/chats.ts:55-102 | the trigger computes ChatUpdatedEffect, the store and whether it completed |
| Chats.UnchangedChatWritesNothing | cloud_functions/functions/src/chats.ts:75-101 | a group update that changes nothing writes nothing |
| Chats.LeaveMarkerSkipsLaterUpdates | cloud_functions/functions/src/chats.ts:68-71 | while the document carries updatedFrom = leaveGroup, every update is skipped, renames and member changes included |
| Chats.ChatUpdatedMessages | cloud_functions/functions/src/chats.ts:75-101 | an update completes exactly when no changed name or image is removed; then it writes "renamed" when the name changed, "image updated" when the image changed, one "added" per new member and one "removed" per departed member, in that order; otherwise it writes only a rename to a defined name |
| Chats.ChatUpdatedUserChats | cloud_functions/functions/src/chats.ts:75-101 | an update that removes the name or the image changes no userChat; otherwise a member who joined gets a new userChat, a member who left loses theirs, and every other userChat is unchanged |
| Chats.MembershipUserChats | cloud_functions/functions/src/chats.ts:85-101 | the same for the two member loops alone |
| Groups.LeaveGroupCheck | cloud_functions/functions/src/groups.ts:15-48 | the validations in source order: a falsy chatId is invalid-argument, a missing chat not-found, a missing auth uid unauthenticated, no profile with that uid or a caller who is not a member not-found; success exactly when all pass, giving the first profile with that uid |
| Groups.WithoutMember | cloud_functions/functions/src/groups.ts:53-58 | the members without the leaving member, the marker updatedFrom = leaveGroup, every other field unchanged |
| Groups.LeaveGroup | cloud_functions/functions/src/groups.ts:12-61 | a failed check writes nothing and reports its error; otherwise the caller's userChat is deleted, the chat loses the caller and gets the marker, one "member left" message is added, and nothing else changes |
| Groups.LeaveGroupUpdateIsSkipped | cloud_functions/functions/src/groups.ts:53-58 | the chat update that leaveGroup writes is skipped by the chat update trigger, which writes nothing |
| Groups.LeavingTwiceFails | cloud_functions/functions/src/groups.ts:45-48 | calling leaveGroup again for the same caller fails with "Member not found in the chat" and writes nothing |
| SystemMessages.Tag | cloud_functions/functions/src/system_messages.ts:3-10 | every type is stored as a non-empty "group_..." tag |
| SystemMessages.TagsAreDistinct | cloud_functions/functions/src/system_messages.ts:3-10 | two types have the same tag exactly when they are the same type |
| SystemMessages.Record | cloud_functions/functions/src/system_messages.ts:15-19 | the message carries its type's tag, from which the type can be recovered, and the creation time |
| SystemMessages.CreateSystemMessage | cloud_functions/functions/src/system_messages.ts:14-22 | data holding an undefined name or image aborts with nothing written; any other data appends exactly that record to the chat's messages |
| SystemMessages.AddSystemMessage | cloud_functions/functions/src/system_messages.ts:21 | the chat's messages gain exactly that record at the end; other chats and other collections are unchanged |
| UserChats.DeleteUserChatsEffect | cloud_functions/functions/src/user_chats.ts:45-48 | the delete loop removes every member's userChat of the chat and keeps every other userChat as it was |
| UserChats.FirstOther | cloud_functions/functions/src/user_chats.ts:55 | no other member exactly when every member is the deleting user; otherwise the first member who is not |
| UserChats.OnUserChatDeleted | cloud_functions/functions/src/user_chats.ts:7-69 | the trigger computes UserChatDeletedEffect: nothing without data, ids or chat; the group branch for groups and the private branch otherwise; a group without createdBy throws |
| UserChats.OnlyDeletes | cloud_functions/functions/src/user_chats.ts:7-69 | the trigger only deletes: every chat and userChat left was there before and is unchanged, and no other collection changes |
| UserChats.GroupOnlyDeletes | cloud_functions/functions/src/user_chats.ts:35-52 | the same for the group branch |
| UserChats.PrivateOnlyDeletes | cloud_functions/functions/src/user_chats.ts:54-69 | the same for the private branch |
| UserChats.CreatorDeletesGroup | cloud_functions/functions/src/user_chats.ts:35-52 | when the group's creator deletes their userChat, the chat and every member's userChat of it are deleted |
| UserChats.MemberLeavesGroupAlone | cloud_functions/functions/src/user_chats.ts:37-40 | when any other member deletes their userChat of a group, nothing else is written |
| UserChats.PrivateChatGoesWithBothUserChats | cloud_functions/functions/src/user_chats.ts:54-69 | a private chat of two users is deleted exactly when the other user has no userChat of it either |
| TokenClaims.GetUsernameByUid | cloud_functions/functions/src/token_claims.ts:81-102 | a username exactly when the uid is truthy and the first profile with that uid has a truthy username, which is returned |
| TokenClaims.BeforeUserSignedIn | cloud_functions/functions/src/token_claims.ts:8-22 | without credential claims there is no response; with them, a username claim exactly when the username is found, otherwise an empty response |
| TokenClaims.RefreshPathsDiffer | cloud_functions/functions/src/token_claims.ts:27-78 | the path deleted on removal, metadata/u/refreshTime, is never the path written, refreshTime/u |
| TokenClaims.UsernameChangeSetsClaim | cloud_functions/functions/src/token_claims.ts:48-78 | a new or renamed profile with a uid gets the claim username and a refresh time three minutes ahead, and nothing else changes |
| TokenClaims.SameUsernameSkips | cloud_functions/functions/src/token_claims.ts:47-54 | a write that keeps the username writes nothing |
| TokenClaims.RemovalKeepsRefreshTime | cloud_functions/functions/src/token_claims.ts:27-31 | removing a profile throws on the three-segment path and leaves the refresh time written earlier in place |
| Firestore.UserById | cloud_functions/functions/src/messages.ts:160-161 | the first profile with that id, or nothing exactly when no profile has it |
| Firestore.UserByUid | cloud_functions/functions/src/groups.ts:36-41 | nothing exactly when no profile has that uid; otherwise the first profile with it |
| ModelEntity.Addons | src/models/entity.ts:31-35 | exactly the keys id and createdAt: the document id, and the stored createdAt when truthy, else the document's creation time in seconds |
| ModelEntity.FromFirestore | src/models/entity.ts:28-41 | the decoded object has the document id, the createdAt fallback, and every other key exactly as the subclass transform gives it |
| ModelEntity.ToFirestore | src/models/entity.ts:46-50 | the encoded object has no id and every other key exactly as the subclass transform gives it |
| ModelEntity.DefaultEncodeAfterDecode | src/models/entity.ts:28-66 | with the default transforms, decoding a document without id and with a truthy createdAt and encoding it again gives its data back |
| ModelEntity.DefaultDecodeAfterEncode | src/models/entity.ts:28-66 | with the default transforms, encoding a model with a truthy createdAt and decoding it under its own id gives the model back |
| ModelEntities.StringOrUndefined | src/models/entities.ts:53-54 | String(v) \|\| undefined: undefined exactly when String(v) is empty; an undefined value gives the text "undefined" |
| ModelEntities.StringIfTruthy | src/models/entities.ts:78-79 | undefined exactly when the value is falsy, otherwise String(v) |
| ModelEntities.UserChatFrom | src/models/entities.ts:13-21 | exactly the five keys; chat or null; unreadCount, lastReadMessageTimestamp and updatedAt as numbers with NaN read as 0; isStarred as a boolean |
| ModelEntities.UserChatFromIsIdempotent | src/models/entities.ts:13-21 | decoding an already decoded userChat changes nothing |
| ModelEntities.ChatFrom | src/models/entities.ts:50-59 | exactly the six keys; isGroup as a boolean; the name and the image through String(v) \|\| undefined; members and messages default to []; createdBy as stored |
| ModelEntities.MissingGroupNameBecomesText | src/models/entities.ts:53 | a chat without groupName decodes to the name "undefined" (see Findings) |
| ModelEntities.ChatFromIntended | src/models/entities.ts:50-59 | the decoder with the evident intent: a falsy name or image stays undefined, a string one is kept, and every other key is as in ChatFrom |
| ModelEntities.IntendedChatFromIsIdempotent | src/models/entities.ts:50-59 | under the corrected decoder a missing name stays undefined, and decoding twice equals decoding once |
| ModelEntities.IntendedFieldIsStable | src/models/entities.ts:50-59 | each key of a decoded chat keeps its value when decoded again |
| ModelEntities.NewChatEntity | src/models/entities.ts:35-48 | no data gives an empty entity; otherwise exactly the chat fields, copied from the data |
| ModelEntities.UserProfileFrom | src/models/entities.ts:72-82 | exactly the seven keys; uid, username, email and firstName through String(v); lastName and photoUrl undefined exactly when falsy; isOnline as a boolean |
| ModelEntities.NewMessageEntity | src/models/entities.ts:127-138 | exactly the message fields, copied from the data, with isRead and isPinned defaulting to false and readBy to [] |
| ModelEntities.MessageFrom | src/models/entities.ts:140-152 | exactly the message fields; text through String(v); isRead and isPinned as booleans; readBy and attachmentsUrl default to []; createdAt through parseInt; systemMessageType and data undefined when falsy |
| ModelEntities.MessageTo | src/models/entities.ts:154-162 | only text, fromUser, isPinned, attachmentsUrl and createdAt are written, with a falsy isPinned written as undefined |
| ModelEntities.MessageRoundTrip | src/models/entities.ts:140-162 | a message with a text and a non-zero integer createdAt, encoded and decoded, keeps its id, text, sender, createdAt and pinned flag, and comes back unread with no readers and no system type |
| ModelEntities.MessageEncoded | src/models/entities.ts:154-162 | encoding keeps the text, createdAt, sender and pinned flag and drops the read state, the system type and the data |
| ModelEntities.MessageDecoded | src/models/entities.ts:140-152 | decoding such an encoded message gives the fields the round trip promises |
| ModelEntities.MessageRefFrom | src/models/entities.ts:175-180 | exactly message and createdAt, as stored |
| ModelEntities.MessageFileFrom | src/models/entities.ts:203-209 | exactly message, url and isMedia, with isMedia as a boolean |
| ModelEntities.MessageFileTo | src/models/entities.ts:211-217 | exactly message, url and isMedia, as in the model |
| ModelEntities.PinnedRoundTrip | src/models/entities.ts:175-187 | a pinned message, encoded and decoded, keeps its message reference and id, and its createdAt when truthy |
| ModelEntities.MessageFileRoundTrip | src/models/entities.ts:203-217 | a file record, encoded and decoded, keeps its message reference and URL, and its media flag as a boolean |
| ServiceEntity.FromFirestore | src/services/entity.ts:25-38 | the decoded object has the document id, the creation time in seconds as createdAt (a stored createdAt is ignored), and every other key as the transform gives it |
| ServiceEntity.ToFirestore | src/services/entity.ts:43-48 | the encoded object has neither id nor createdAt, and every other key as the transform gives it |
| ServiceEntity.DefaultEncodeAfterDecode | src/services/entity.ts:25-64 | with the default transforms, decoding and encoding gives the document data without id and createdAt |
| ServiceEntity.DefaultDecodeAfterEncode | src/services/entity.ts:25-64 | a model whose id and createdAt are the document's id and creation time survives encoding and decoding unchanged |
| ServiceEntities.UserChatFrom | src/services/entities.ts:12-18 | exactly chat (or null), unreadCount (NaN read as 0) and isStarred as a boolean: no updatedAt |
| ServiceEntities.DecodedUserChatHasNoUpdatedAt | src/services/entities.ts:7-19 | a userChat decoded here never has updatedAt (see Findings) |
| ServiceEntities.DecodedChat | src/services/entities.ts:37-46 | a chat decoded here has the document id and creation time, isGroup as a boolean, members defaulting to [], and the name "undefined" when the document has none |
| ServiceEntities.UserProfileFrom | src/services/entities.ts:58-67 | the six keys of the models decoder without uid, with the same values |
| ServiceEntities.PrivateChatAggregate | src/services/entities.ts:77-88 | the aggregate holds the given chat, the other user's profile and the userChat, unchanged |
| ServiceEntities.GroupChatAggregate | src/services/entities.ts:90-97 | the aggregate holds the given chat and userChat, unchanged, and no profile |
| ChatsStore.FindIndex | src/stores/chats.ts:47 | the first index whose aggregate satisfies the test, or -1 exactly when none does |
| ChatsStore.Find | src/stores/chats.ts:106 | the first aggregate that satisfies the test, or nothing exactly when none does |
| ChatsStore.RemoveAt | src/stores/chats.ts:58 | splice(i, 1): one shorter, the elements before i kept and the later ones shifted down by one |
| ChatsStore.RemovedUserChat | src/stores/chats.ts:45-59 | the first aggregate with that userChat id is removed, or the list is unchanged when there is none |
| ChatsStore.RemovedUserChatRoute | src/stores/chats.ts:53-56 | the route changes only to the app route, and it is the app route exactly when it was already, or when the removed userChat was found and is the open chat |
| ChatsStore.ModifiedUserChat | src/stores/chats.ts:128-137 | the first aggregate with that userChat id gets the new userChat; all the others and the length stay |
| ChatsStore.ModifiedChat | src/stores/chats.ts:105-113 | the first aggregate with that chat id gets the new chat; all the others and the length stay |
| ChatsStore.RemovedChat | src/stores/chats.ts:114-124 | as written, the test compares each chat id with the aggregate's own missing id: the first aggregate whose chat has no id is removed and the removed chat's subscription called; with none, nothing changes |
| ChatsStore.ChatQueryId | src/stores/chats.ts:63 | the query needs userChat.chat to be a reference with a non-empty last segment, which is its id; otherwise where() throws |
| ChatsStore.AddedUserChat | src/stores/chats.ts:62-82 | the aggregate list is unchanged; a valid chat reference stores a subscription to that chat under the userChat id, and an invalid one throws and changes nothing |
| ChatsStore.AddedGroupChat | src/stores/chats.ts:83-87 | the group aggregate of the chat and the userChat is appended, without a profile |
| ChatsStore.FirstOtherMember | src/stores/chats.ts:97 | none exactly when every member's id is the current user's; otherwise a member whose id is not |
| ChatsStore.AddedPrivateChat | src/stores/chats.ts:88-104 | a chat without exactly two members is ignored; otherwise the private aggregate with the other member's profile is appended; when both members are the current user the find yields undefined and .id throws |
| ChatsStore.UserChatChangesStopAtThrow | src/stores/chats.ts:31-42 | once a change of a userChats snapshot throws, the later changes of that snapshot do nothing |
| ChatsStore.ChatChangesStopAtThrow | src/stores/chats.ts:65-80 | once a change of a chat snapshot throws, the later changes of that snapshot do nothing |
| ChatsStore.CompareUpdatedAt | src/stores/chats.ts:188 | b.updatedAt - a.updatedAt when both are numbers, and 0 (no reordering) when either is NaN |
| ChatsStore.Insert | src/stores/chats.ts:187-189 | one step of the stable insertion the sort performs: the list with the element added, a permutation |
| ChatsStore.SortWith | src/stores/chats.ts:187-189 | the stable sort gives a permutation of the list |
| ChatsStore.NaNKeepsOrder | src/stores/chats.ts:187-189 | when every updatedAt is NaN, the sort keeps the list as it is |
| ChatsStore.GetChatsKeepsArrivalOrder | src/stores/chats.ts:187-189 | when no decoded userChat has updatedAt, getChats returns the chats in arrival order (see Findings) |
| ChatsStore.SortNewestFirst | src/stores/chats.ts:187-189 | when every userChat has a numeric updatedAt, the sort puts the newest first |
| ChatsStore.UserChatFromIntended | src/stores/chats.ts:188 | the userChat decoder the comparator needs: the same keys and values plus updatedAt as a number |
| ChatsStore.IntendedGetChatsNewestFirst | src/stores/chats.ts:187-189 | with that decoder, getChats returns a permutation of the chats, newest first |
| ChatsStore.ModifiedUserChatIsFound | src/stores/chats.ts:128-137 | after a userChat is modified, looking up its id finds the new userChat |
| ChatsStore.RemovedChatIgnoresDecodedChats | src/stores/chats.ts:114-124 | when every chat in the list has an id, as decoded chats do, removing a chat changes nothing and calls no subscription |
| ChatsStore.RemovedChatRemovesIdlessChat | src/stores/chats.ts:114-124 | a chat without an id is what the shadowed test removes instead |
| ChatsStore.PrivateChatShowsOtherMember | src/stores/chats.ts:88-104 | a private chat of me and another user is appended with the other user's profile |
| ChatsStore.NotTwoMembersIgnored | src/stores/chats.ts:89-92 | a chat whose member list does not have two entries is not shown |
| ChatsStore.AstralMembersStringThrows | src/stores/chats.ts:89-97 | a members string holding one astral character has length 2 in UTF-16 code units, so it passes the length guard and `find` throws |
| ChatsStore.PrivateChatCreated | src/stores/chats.ts:141-164 | no current username or no username fails and writes nothing; otherwise the chat gets both members in order and no createdBy (it is written as createBy), the creator's userChat gets no unread and updatedAt in seconds, and the result is the new id |
| ChatsStore.GroupChatCreated | src/stores/chats.ts:165-184 | fails and writes nothing without a current username, an id, a name or an image (setDoc rejects undefined); otherwise the group chat with the creator and the creator's userChat are written and nothing else |
| ChatsStore.AbandonedPrivateChatIsDeleted | src/stores/chats.ts:141-164 | a new private chat, once its creator deletes their userChat, is deleted by the server, because the other user never had a userChat |
| ChatsStore.CreatorDeletingGroupDeletesIt | src/stores/chats.ts:165-184 | a new group, once its creator deletes their userChat, is deleted with every member's userChat |
| ChatsStore.ChatStore.constructor | src/stores/chats.ts:13-16 | the store starts with no aggregates and no subscriptions |
| ChatsStore.ChatStore.FetchUserChats | src/stores/chats.ts:19-43 | the list is emptied; without a current username nothing is subscribed, otherwise the user's userChats collection is |
| ChatsStore.ChatStore.OnUserChatsSnapshot | src/stores/chats.ts:31-42 | the listener loop leaves the store, route and outcome of UserChatChanges |
| ChatsStore.ChatStore.HandleRemovedUserChat | src/stores/chats.ts:45-59 | the list becomes RemovedUserChat and the route RemovedUserChatRoute; subscriptions stay |
| ChatsStore.ChatStore.HandleAddedUserChat | src/stores/chats.ts:62-82 | the store becomes that of AddedUserChat |
| ChatsStore.ChatStore.OnChatSnapshot | src/stores/chats.ts:65-80 | the chat listener loop leaves the store, the subscriptions called and the outcome of ChatChanges |
| ChatsStore.ChatStore.ApplyChatChange | src/stores/chats.ts:66-78 | one chat change leaves the state of ChatChange |
| ChatsStore.ChatStore.HandleAddedGroupChat | src/stores/chats.ts:83-87 | the list becomes AddedGroupChat; subscriptions stay |
| ChatsStore.ChatStore.HandleAddedPrivateChat | src/stores/chats.ts:88-104 | the list and outcome become those of AddedPrivateChat; subscriptions stay |
| ChatsStore.ChatStore.HandleModifiedChat | src/stores/chats.ts:105-113 | the list becomes ModifiedChat; subscriptions stay |
| ChatsStore.ChatStore.HandleRemovedChat | src/stores/chats.ts:114-124 | the state and the subscription called are those of RemovedChat |
| ChatsStore.ChatStore.HandleModifiedUserChat | src/stores/chats.ts:128-137 | the list becomes ModifiedUserChat; subscriptions stay |
| ChatsStore.ChatStore.GetChats | src/stores/chats.ts:187-189 | sorts the list in place with the comparator and returns it |
| ChatsStore.ChatStore.CreatePrivateChat | src/stores/chats.ts:141-164 | the writes and result of PrivateChatCreated |
| ChatsStore.ChatStore.CreateGroupChat | src/stores/chats.ts:165-184 | the writes and result of GroupChatCreated |
| ChatsStore.ChatStore.GetChatsCount | src/stores/chats.ts:190 | the number of aggregates |
| ChatsStore.ChatStore.GetChatByUserChatId | src/stores/chats.ts:191-195 | an aggregate of the list with that userChat id, or nothing exactly when there is none |
| ChatsStore.ChatStore.GetChatByChatId | src/stores/chats.ts:196-200 | an aggregate of the list with that chat id, or nothing exactly when there is none |
| PinnedMessageService.PinToggled | src/services/PinnedMessageService.ts:6-18 | fails and writes nothing for an empty id or a missing message; otherwise the message's isPinned becomes the negation of the caller's flag, and the pinned record is deleted (caller's flag true) or set with the time in seconds (false); nothing else changes |
| PinnedMessageService.TogglePinnedMessage | src/services/PinnedMessageService.ts:6-18 | the transaction computes PinToggled |
| PinnedMessageService.ToggleAgrees | src/services/PinnedMessageService.ts:10-17 | after a toggle the message's flag and the presence of its pinned record agree |
| PinnedMessageService.CallerFlagDecides | src/services/PinnedMessageService.ts:10-17 | the caller's copy of isPinned, not the stored one, decides which branch runs |
| PinnedMessageService.ToggleTwiceRestores | src/services/PinnedMessageService.ts:6-18 | toggling twice with fresh copies restores the message and the presence of every pinned record |
| PinnedMessageService.StaleUnpinIsHarmless | src/services/PinnedMessageService.ts:10-13 | unpinning from a stale copy when the message is not pinned leaves the store unchanged |
| MessageService.ReadStatusUpdated | src/services/MessageService.ts:5-17 | fails for an empty id, or in a private chat for a missing message or userChat; a group read returns before any write; otherwise the message becomes read and the reader's unread count drops by one, and nothing else changes |
| MessageService.UpdateMessageReadStatus | src/services/MessageService.ts:5-17 | the transaction computes ReadStatusUpdated |
| MessageService.UnreadCountCanGoNegative | src/services/MessageService.ts:15 | reading in a chat with no unread messages leaves -1 unread |
| MessageService.ReadUndoesFanOut | src/services/MessageService.ts:14-15 | reading after a new message bumped the userChat restores the unread count it had before the message |
| MessageService.GroupReadWritesNothing | src/services/MessageService.ts:10-13 | in a group, marking a message read writes nothing, readBy included |
| CurrentUser.WithUser | src/stores/current-user.ts:70-81 | the eight profile fields take the given profile's values (undefined where it has none), isOnline becomes true, and every other field stays |
| CurrentUser.WithRawUser | src/stores/current-user.ts:82-91 | uid, email, username and photoUrl take the Auth user's uid, email, displayName and photoURL; every other field stays |
| CurrentUser.WithUpdatedUser | src/stores/current-user.ts:92-97 | firstName, lastName, username and photoUrl take the update's values; every other field stays, id and email included |
| CurrentUser.WithUserDecidesGetters | src/stores/current-user.ts:70-81 | after setUser, isEmpty and isNotCompleted are those of the profile that was set |
| CurrentUser.WithUserIdempotent | src/stores/current-user.ts:70-81 | setting the same profile twice equals setting it once |
| CurrentUser.RawUserKeepsEmptiness | src/stores/current-user.ts:82-91 | setRawUser never changes isEmpty, since it does not write the id |
| CurrentUser.UpdateKeepsCache | src/stores/current-user.ts:92-97 | a live update never changes whether the cache check of fetchUserByEmail hits |
| CurrentUser.CurrentUserStore.constructor | src/stores/current-user.ts:11-13 | the store starts with an empty profile, which is empty and not completed |
| CurrentUser.CurrentUserStore.SetUser | src/stores/current-user.ts:70-81 | the profile becomes WithUser of the old one |
| CurrentUser.CurrentUserStore.SetRawUser | src/stores/current-user.ts:82-91 | no Auth user leaves the profile; otherwise it becomes WithRawUser of the old one |
| CurrentUser.CurrentUserStore.SetUpdatedUser | src/stores/current-user.ts:92-97 | the profile becomes WithUpdatedUser of the old one |
| CurrentUser.CurrentUserStore.FetchUserByEmail | src/stores/current-user.ts:32-61 | the query runs exactly when the cached profile does not have that email and an id; a cache hit returns the profile unchanged, no result returns null, and a result sets the first profile found, after which the cache hits for that email |
| UserStore.WithData | src/stores/user.ts:47-53 | uid, firstName, lastName, email and createdAt take the data's values; the username and every other field stay |
| UserStore.UsernameNeverCopied | src/stores/user.ts:47-53 | setUser never changes the username |
| UserStore.WithDataDecidesGetters | src/stores/user.ts:47-53 | after setUser, isEmpty and isNotCompleted are those of the data |
| UserStore.EmptyEmailHitsInitialRecord | src/stores/user.ts:8-15 | the initial record has the email "", so asking for "" returns it without a query, and it is empty and not completed |
| UserStore.UserStore.constructor | src/stores/user.ts:7-16 | the store starts with the initial record |
| UserStore.UserStore.SetUser | src/stores/user.ts:47-53 | the record becomes WithData of the old one |
| UserStore.UserStore.FetchUser | src/stores/user.ts:26-30 | succeeds exactly when the username is non-empty and the document exists, and then sets its data; otherwise it throws and the record stays |
| UserStore.UserStore.FetchUserProfileByEmail | src/stores/user.ts:31-46 | the query runs exactly when the record's email differs; a hit returns the record, no result returns null, and a result sets and returns the first document found |

Some behaviour is read from the code literally:
- The "removed" branch of `setTokenClaimsAfterUserUpdate` asks for the document at
  `metadata/{username}/refreshTime`. That path has three segments, so it names a collection,
  and the call throws before anything is deleted. The model records the throw (`Aborted`)
  and leaves the store as it was.
- `handleRemovedChat` compares each aggregate's chat id with the aggregate's own `id`,
  because its parameter is shadowed. It keeps that behaviour.
- A group read in `updateMessageReadStatus` returns before any write.
- `createUserChat` writes no `updatedAt`.
- A private chat is written with the key `createBy`, so it never has a `createdBy`.

## Left out

- Firestore SDK mechanics are not modelled: `onSnapshot`, `getDocs`, query engines and transaction retry. Each listener's change list is an input, each query's result is the first matching document of a collection, and each transaction is applied whole or not at all.
- Trigger re-delivery and the interleaving of triggers and client actions are concurrency, so they are left out. Each trigger runs alone on one store.
- `Date.now()` is the parameter `now`. The Auth SDK (`setCustomUserClaims`, whose failure is the flag `claimsFail`) and the messaging SDK (`sendEachForMulticast`, the arrow `Transport` with one response per token) are parameters too.
- WHATWG URL parsing in `isMediaFile` is the arrow `UrlParser`, which gives the pathname or nothing.
- The profile lookup `fetchByUsername` of the users store is the arrow `profileOf`. The users store and the messages store are caches over the SDK, so they are not part of this model.
- Router navigation is the `Route` value that `handleRemovedUserChat` returns.
- Strict equality on references and arrays compares them by content. Object identity is not modelled.
- Class fields declared without an initialiser are absent keys of the object map.
- The two entity base classes (src/models/entity.ts, src/services/entity.ts) call lodash `omit` without importing it; it is modelled as key removal only.
- `getContrastColor` and `generateAvatarColors` (src/utils/avatars.ts) use floating-point luminance, so they are left out.
- The `Math.random` fallback of `generateFirestoreId` is left out. The crypto branch is modelled as a function of the 20 random bytes.
- NotificationService, TokenRefreshService, useChatNotification, the service worker, the DOM helpers, the style constants and the wiring files (router, main, firebase, vite, the functions index) are not part of this model.
- The Chat datatype stores neither `createdAt` nor the misspelt `createBy` key of private chats. No modelled code reads them.
- `ChatsStore.AddedPrivateChat`: its contract says what an appended aggregate is, but not that every valid private chat is appended. `ChatsStore.PrivateChatShowsOtherMember` states that for two distinct members.
- `Avatars.GenerateInitials`: its contract fixes only the first initial and the length. Upper-casing is ASCII-only, so a character whose upper case is longer (`ß` to `SS`) keeps one character, and the name is indexed by character rather than by UTF-16 code unit. `Avatars.InitialsOfDisplayName` states both initials for display names built from single words.
- Numbers are modelled as integers, with NaN as a separate value. Fractions, floating-point rounding and the 2^53 limit of exact integers are not modelled; the numbers the core handles are timestamps and counts.
- `ModelEntities.UserChatFrom`, `ServiceEntities.UserChatFrom`, `ChatsStore.UserChatFromIntended` and `ChatsStore.CompareUpdatedAt`: `Number(v)` goes through `Js.StringToNumber`, which reads only an optionally signed decimal integer between whitespace. Other spellings that JavaScript reads as numbers, such as "1e3", "0x10" and "1.0", are NaN here, so the decoders give 0 and the comparator sees NaN for a stored string where the source keeps the value. Numbers stored as numbers are unaffected.
- `Keywords.GenerateKeywords`: lower-casing is ASCII-only (`toLowerCase` maps all of Unicode), and prefixes grow by one character, whereas `slice` and `split('')` step by UTF-16 code unit. The two agree on ASCII names.
- `Keywords.GenerateUserKeywords`: it uses `GenerateKeywords`, so it has the same limits for names outside ASCII.
- `Messages.Truncate`: a cut through a surrogate pair is not modelled, because `substring(0, 97)` would keep a lone high surrogate, which a sequence of scalar values cannot hold. The prefix kept is the longest whole-character one of at most 97 units.
- `ChatsStore.SortWith`: when the comparator mixes NaN with numbers it is not a consistent order, and JavaScript leaves the result to the engine. The model uses a stable insertion sort. The decoders never produce such a mix: `updatedAt` is always missing.
- `Messages.UrlsFrom` and `Messages.ExtractUrls`: their own contracts state only the shape of every extracted URL. `Messages.NextMatch` and `Messages.NoUrlsIffNoMatch` state, for every text, that the URLs are the leftmost greedy matches, in order and without overlap. Together these fix the result.
- `Messages.CountUnreadEffect` and `Messages.UnreadAccounting` assume a member list without duplicates. With a repeated member, the source bumps that member's userChat once per occurrence.

## Findings

| source | as written | input that shows it | evidently intended | confidence | as-written member | corrected member |
|---|---|---|---|---|---|---|
| src/stores/chats.ts:187-189 | `getChats` sorts on `userChat.updatedAt`. The userChat decoder the store uses (src/services/entities.ts:12-18) never produces `updatedAt`, so every comparison is NaN, which counts as equal, and the list stays in arrival order. | two chats whose userChat documents have updatedAt 100 and 200, arriving in that order: getChats returns them as [100, 200] | newest first: [200, 100] | not executed | ChatsStore.GetChatsKeepsArrivalOrder | ChatsStore.IntendedGetChatsNewestFirst |
| src/models/entities.ts:53 | `String(data.groupName) \|\| undefined` turns a missing name into the non-empty text "undefined", so the fallback never applies. | a private chat document, which has no groupName: the decoded chat has groupName "undefined" | groupName undefined | not executed | ModelEntities.MissingGroupNameBecomesText | ModelEntities.ChatFromIntended |
