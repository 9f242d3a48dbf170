# social-custom, modelled in Dafny

social-custom is a React and Firebase social app: a feed of posts with likes,
threaded comments and emoji reactions; one-to-one chats; in-app
notifications shown as toasts; push notifications; and an installable PWA
with a service worker. Most of its code is markup around Firestore, FCM and
Cloudinary calls. Those calls surround small deterministic steps: read a
document, compute, write it back. This project models those steps and proves
what they promise.

Every Firestore read is an input value: a document, or `None` when it does
not exist. Where a failed read or write changes what an operation answers
and the model covers it (the chat lookup, the notification service, the
push token store, the settings form), the input can also be the message
the call failed with. The writes an operation makes are part of its
result. The failures the model does not cover are listed under "Left out". State that the source changes in
place is a Dafny `class` whose methods say what the new state is. This covers
the module-level user-info cache, the PWA install flags, the toast stack, the
like button, the chat composer, the settings form, the cache storage of the
service worker, the suggestion panel, the user picker and the chat list.

One module per source file:

| module | source file |
|---|---|
| `Posts` | src/hooks/usePosts.js |
| `Messages` | src/hooks/useMessages.js |
| `ChatView` | src/components/chat/ChatWindow.jsx |
| `CommentThreads` | src/components/posts/Comments.jsx |
| `Linkify` | src/utils/linkify.js |
| `Toasts` | src/components/notifications/NotificationManager.jsx |
| `UserInfo` | src/hooks/useUserInfo.js |
| `Pwa` | src/hooks/usePWA.js |
| `ServiceWorker` | public/sw.js |
| `PushTokens` | src/services/pushNotificationService.js |
| `PushFunction` | functions/index.js |
| `SendPush` | api/send-push.js |
| `PostCard` | src/components/posts/PostCard.jsx |
| `ChatInput` | src/components/chat/ChatInput.jsx |
| `Settings` | src/pages/SettingsPage.jsx |
| `ToastNotification` | src/components/notifications/ToastNotification.jsx |
| `FollowSuggestions` | src/components/profile/FollowSuggestions.jsx |
| `NewChat` | src/components/chat/NewChatModal.jsx |
| `ChatList` | src/hooks/useChats.js |
| `Notifications` | src/hooks/useNotifications.js |
| `ChatService` | src/services/chatService.js |
| `Avatar` | src/components/ui/Avatar.jsx |
| `Sidebar` | src/components/layout/Sidebar.jsx |
| `NotificationService` | src/services/notificationService.js |

Two modules hold what several files share:
- `Common` holds JavaScript's truthiness and `||` defaults, `trim`, ASCII case mapping, `includes` and `filter`.
- `Sorting` holds `Array.prototype.sort` as an insertion sort under a comparator, and a code-point order for `localeCompare`.

Where the code and its documentation disagree, the model follows the code.

There are three examples:
- The optimistic like rollback in PostCard.jsx is modelled twice: once as written and once as intended.
- The chat list of useChats.js is modelled twice in the same way.
- The toast effect of NotificationManager.jsx is modelled twice in the same way.

See "Findings" for all three.

## Model

| member | source | states |
|---|---|---|
| Posts.UpdatedLikes | src/hooks/usePosts.js:143-148 | unliking removes every copy of the user and keeps every other user's count; liking appends the user at the end and keeps the rest of the list |
| Posts.LikeCountsCopies | src/hooks/usePosts.js:143-148 | liking has no duplicate check: each like adds one more copy of the user |
| Posts.LikeThenUnlike | src/hooks/usePosts.js:143-148 | a like followed by an unlike leaves no copy of the user, whatever was there before |
| Posts.RemoveAllAppended | src/hooks/usePosts.js:143-148 | removing a user from a list with that user appended gives the same list as removing it from the original |
| Posts.LikePost | src/hooks/usePosts.js:129-173 | signed out or post missing is an error; otherwise the written likes are the toggled list, and the owner is notified only on a like by someone else |
| Posts.FindIndex | src/hooks/usePosts.js:315 | `findIndex`: None exactly when no comment has the id, otherwise the first index carrying it |
| Posts.AddLevel | src/hooks/usePosts.js:190-199 | a comment without a parent, or with an unknown parent, is at level 0; a reply is at its parent's level + 1 and is refused above level 2 |
| Posts.AddComment | src/hooks/usePosts.js:175-237 | error order (signed out, blank text, missing post, too deep); on success exactly one comment is appended, with trimmed text, no reactions and the computed level, the counter rises by one, and the owner is notified only for a top-level comment by someone else |
| Posts.ReplyComment | src/hooks/usePosts.js:239-300 | like `addComment`, except an unknown parent is an error; the reply sits one level below its parent, at most 2, and carries the "@name " prefix |
| Posts.AddCommentKeepsInvariant | src/hooks/usePosts.js:175-237 | given a fresh id, adding a comment keeps unique ids, exact levels, the level bound and the one-emoji-per-user reactions |
| Posts.ReplyCommentKeepsInvariant | src/hooks/usePosts.js:239-300 | given a fresh id, replying keeps the same thread invariant |
| Posts.ToggleReaction | src/hooks/usePosts.js:322-347 | the in-place splice/delete/forEach update computes exactly `ToggledReactions` |
| Posts.ReactionIsToggle | src/hooks/usePosts.js:324-335 | afterwards the user holds the emoji exactly when they did not before |
| Posts.ToggleKeepsReactionsOk | src/hooks/usePosts.js:336-347 | at most one emoji per user, no empty list and no duplicate user survive every reaction |
| Posts.ReactionSwitchesEmoji | src/hooks/usePosts.js:336-347 | reacting with a new emoji moves the user off the emoji held before; that emoji's key is deleted exactly when the user was its only holder |
| Posts.ToggleKeepsOtherUsers | src/hooks/usePosts.js:322-347 | no other user's reactions change |
| Posts.ReactTwiceRestores | src/hooks/usePosts.js:324-335 | for a user with no reaction, reacting twice with the same emoji restores the reactions exactly |
| Posts.ReactToComment | src/hooks/usePosts.js:302-364 | signed out, missing post or unknown comment is an error; otherwise only the target comment's reactions change, and every other comment and the order stay the same |
| Posts.ReactKeepsInvariant | src/hooks/usePosts.js:302-364 | reacting keeps the thread invariant |
| Posts.FindReplies | src/hooks/usePosts.js:391-398 | the recursive `findReplies` pushes onto `toDelete` exactly the collected reply ids |
| Posts.Survivors | src/hooks/usePosts.js:404 | a comment survives exactly when its id is not among the deleted ids |
| Posts.SurvivorsKeepOrder | src/hooks/usePosts.js:404 | survivors keep their relative order |
| Posts.RepliesDescend | src/hooks/usePosts.js:391-398 | every collected id belongs to a comment hanging below the deleted one |
| Posts.DescendantsCollected | src/hooks/usePosts.js:391-398 | every comment hanging below the deleted one through replyTo links is collected |
| Posts.DeletesExactlySubtree | src/hooks/usePosts.js:389-404 | a comment is deleted exactly when it is the target or hangs below it |
| Posts.ClampZero | src/hooks/usePosts.js:408 | `Math.max(0, n)`: never negative, and the identity on non-negative numbers |
| Posts.DeleteComment | src/hooks/usePosts.js:366-416 | signed out, missing post, unknown comment or another author is an error and writes nothing; otherwise the subtree is removed and the counter drops by its size, clamped at 0 |
| Posts.SurvivorsKeepUniqueIds | src/hooks/usePosts.js:404 | deleting keeps comment ids distinct |
| Posts.DeleteKeepsInvariant | src/hooks/usePosts.js:366-416 | deleting keeps the thread invariant |
| Messages.BuildMessage | src/hooks/useMessages.js:79-100 | a new message is unread, sent, without reactions, with trimmed text; a file URL makes it a file message even when an image URL is also given |
| Messages.LastMessagePreview | src/hooks/useMessages.js:104 | the preview is the text, else the image placeholder, else the file name, else the file placeholder; never empty |
| Messages.FirstOther | src/hooks/useMessages.js:108 | `find(id => id !== uid)`: None exactly when every participant is the sender, otherwise the first other participant |
| Messages.SummaryUpdate | src/hooks/useMessages.js:104-116 | the preview is written, and the only counter written is the other participant's, at its old value + 1 (absent reads as 0) |
| Messages.SendRaisesOnlyRecipientCounter | src/hooks/useMessages.js:106-116 | after sending, the recipient's counter is one higher and the sender's and every other counter are unchanged |
| Messages.SendMessage | src/hooks/useMessages.js:75-123 | no chat or no user is an error with the text 'Missing chatId or user'; otherwise every field of the message record is stated (id, sender, name and photo defaults, trimmed text, stored URLs, file name and size only with a file URL, `type` 'file' over 'image'), with the chat update above |
| Messages.ToggleMessageReaction | src/hooks/useMessages.js:173-184 | the in-place update computes exactly `ToggledMessageReactions` |
| Messages.MessageReactionIsToggle | src/hooks/useMessages.js:175-184 | afterwards the user holds the emoji exactly when they did not before |
| Messages.MessageReactionKeepsOtherEmojis | src/hooks/useMessages.js:182-184 | other emojis' lists are untouched, so a user may hold several emojis on one message |
| Messages.MessageReactTwiceRestores | src/hooks/useMessages.js:175-184 | reacting twice with the same emoji restores the reactions |
| Messages.ReactToMessage | src/hooks/useMessages.js:162-195 | no chat or no user, or a missing message, is an error without a message text; otherwise the toggled reactions are written |
| Messages.DeleteMessage | src/hooks/useMessages.js:143-160 | deletion happens exactly when the message exists and the current user sent it; no chat or no user fails without a message text, anything else with 'Unauthorized' |
| Messages.UnreadFromOthers | src/hooks/useMessages.js:201-203 | every unread message from another sender is selected |
| Messages.UnreadFromOthersSound | src/hooks/useMessages.js:201-203 | every selected id is an unread message from another sender |
| Messages.MarkAsRead | src/hooks/useMessages.js:197-222 | the selection above; the reader's counter is reset exactly when something was selected |
| Messages.ApplyRead | src/hooks/useMessages.js:206-212 | exactly the selected messages become read, and nothing else changes |
| Messages.MarkAsReadReadsAllFromOthers | src/hooks/useMessages.js:197-222 | when message ids are distinct, afterwards every message from another sender is read and every one of the reader's own messages is untouched |
| ChatView.FilterMessages | src/components/chat/ChatWindow.jsx:61-66 | keeps exactly the messages whose text or sender name contains the query |
| ChatView.FilterKeepsOrder | src/components/chat/ChatWindow.jsx:61-66 | filtering keeps the original order |
| ChatView.FilterAllMatching | src/components/chat/ChatWindow.jsx:61-66 | when every message matches, nothing is dropped |
| ChatView.FilteredMessages | src/components/chat/ChatWindow.jsx:59-67 | a blank query returns the list unchanged; otherwise the lower-cased query filters |
| ChatView.GroupFrom | src/components/chat/ChatWindow.jsx:69-102 | the reduce appends exactly one annotated record per message |
| ChatView.GroupedMessages | src/components/chat/ChatWindow.jsx:69-102 | same length and order as the input, each element the message with its flags |
| ChatView.GroupedFlags | src/components/chat/ChatWindow.jsx:71-97 | grouped iff the previous message has the same sender and is under 300000 ms older (a missing time is Infinity); avatar iff not grouped; time gap iff at least 180000 ms; `showTime` equals the time gap |
| ChatView.FirstMessageShowsAvatar | src/components/chat/ChatWindow.jsx:95 | the first message always shows its avatar and its time |
| ChatView.GroupedAndGapped | src/components/chat/ChatWindow.jsx:74-89 | a same-sender gap between 180000 and 299999 ms is both grouped and gapped |
| ChatView.MissingTimestampStartsGroup | src/components/chat/ChatWindow.jsx:74-87 | a message without a timestamp is never grouped and always starts a time gap |
| CommentThreads.TopLevel | src/components/posts/Comments.jsx:221 | exactly the comments without `replyTo` |
| CommentThreads.Bucket | src/components/posts/Comments.jsx:222-231 | exactly the replies naming that parent id |
| CommentThreads.BuildRepliesMap | src/components/posts/Comments.jsx:222-231 | the `forEach` fills a key exactly for each named parent, holding its replies in original order |
| CommentThreads.EveryCommentPlacedOnce | src/components/posts/Comments.jsx:221-231 | every comment is top-level or in exactly one bucket, the one its `replyTo` names |
| CommentThreads.DisplayComments | src/components/posts/Comments.jsx:236-239 | expanded shows all top-level comments; collapsed shows the last min(3, n) |
| CommentThreads.ButtonsOnlyWhenMoreThanThree | src/components/posts/Comments.jsx:343-364 | a button shows exactly when there are more than 3 top-level comments, never both at once, and "expand" exactly when the collapse hides something |
| CommentThreads.ReplyIsDeeper | src/components/posts/Comments.jsx:318-341 | a rendered reply is stored deeper than its parent, so the recursive render ends |
| CommentThreads.ThreadIsAnchored | src/components/posts/Comments.jsx:318-364 | each rendered entry is a displayed top-level comment at level 0 or sits one level below its parent rendered before it; orphans and replies to hidden comments never render |
| CommentThreads.RenderLevelIsStoredLevel | src/components/posts/Comments.jsx:318-341 | in a thread the hooks wrote, the render level equals the stored level, so the reply button shows exactly where `replyComment` accepts a reply |
| CommentThreads.SubmittedTextIsNotBlank | src/components/posts/Comments.jsx:243-247 | what the form lets through passes the hooks' blank checks, and trimming again changes nothing |
| Linkify.MakeLink | src/utils/linkify.js:18-38 | the url starts with http:// or https:// (https:// is prepended otherwise); the display text is the match up to 50 characters, else its first 47 and "..." |
| Linkify.LinkifyText | src/utils/linkify.js:3-51 | falsy text gives no parts; otherwise the parts concatenate back to the text, text parts are non-empty and never adjacent, the links are the matches in order, each link starts exactly where its match starts, and no match gives one text part |
| Linkify.ScanStep | src/utils/linkify.js:10-41 | one loop round keeps the invariant: the parts so far rebuild the text up to `lastIndex` |
| Linkify.ScanEnd | src/utils/linkify.js:43-50 | the trailing text completes the reconstruction |
| Linkify.UpperCaseSchemeIsPrefixedAgain | src/utils/linkify.js:21-27 | "HTTP://a.io" gets a second scheme, because the prefix test is case-sensitive |
| Linkify.HasLinks | src/utils/linkify.js:53-56 | falsy text is never linked and leaves `lastIndex`; otherwise the answer is the matcher's, and `lastIndex` moves past the match or back to 0 |
| Toasts.Candidates | src/components/notifications/NotificationManager.jsx:9-13 | exactly the unread notifications whose id is not on screen |
| Toasts.CandidatesConcat | src/components/notifications/NotificationManager.jsx:9-13 | the candidates of a concatenation are those of each part, so candidates keep their original order |
| Toasts.FirstCandidate | src/components/notifications/NotificationManager.jsx:9-18 | the notification the effect toasts is the first unread one, in list order, whose id is not on screen |
| Toasts.Pushed | src/components/notifications/NotificationManager.jsx:18 | the new toast first, then at most two of the previous ones, so at most 3 |
| Toasts.WithoutId | src/components/notifications/NotificationManager.jsx:22-24 | closing removes exactly the toasts with that id |
| Toasts.WithoutIdConcat | src/components/notifications/NotificationManager.jsx:22-24 | closing distributes over concatenation, so the other toasts keep their order |
| Toasts.WithoutIdKeepsDistinct | src/components/notifications/NotificationManager.jsx:22-24 | closing keeps the ids distinct |
| Toasts.PushedKeepsDistinct | src/components/notifications/NotificationManager.jsx:11-18 | the pushed id is never on screen already, so ids stay distinct |
| Toasts.ToastQueue.Receive | src/components/notifications/NotificationManager.jsx:15-20 | the effect as written: no candidate leaves the stack; otherwise the first candidate is pushed |
| Toasts.ToastQueue.Close | src/components/notifications/NotificationManager.jsx:22-24 | `handleClose` removes exactly that id |
| Toasts.CandidatesNeverRunOut | src/components/notifications/NotificationManager.jsx:9-20 | with more than 3 unread ids a candidate always remains, so the effect never settles |
| Toasts.EvictedToastReturns | src/components/notifications/NotificationManager.jsx:11-18 | an unread toast pushed off the bottom is a candidate again |
| Toasts.FreshRunsOut | src/components/notifications/NotificationManager.jsx:9-20 | remembering toasted ids makes every push shrink the set still to toast |
| Toasts.Fresh | src/components/notifications/NotificationManager.jsx:9-13 | the corrected candidates: exactly the unread notifications never toasted, never more than the notifications |
| Toasts.OnceToastQueue.Receive | src/components/notifications/NotificationManager.jsx:15-20 | the settling effect: at most 3 distinct toasts, each notification toasted once |
| Toasts.OnceToastQueue.Close | src/components/notifications/NotificationManager.jsx:22-24 | closing removes exactly that id and forgets nothing |
| UserInfo.Normalize | src/hooks/useUserInfo.js:27-30 | the name defaults to 'Người dùng' and the photo to null; neither is ever empty |
| UserInfo.NormalizeIsIdempotent | src/hooks/useUserInfo.js:27-38 | normalised info read back is unchanged, so a second identical snapshot rewrites nothing |
| UserInfo.UserInfoCache.Subscribe | src/hooks/useUserInfo.js:8-23 | no id means no info and no subscription; cached info shows at once without loading; an uncached id keeps showing the hook's previous info while loading |
| UserInfo.UserInfoCache.OnSnapshot | src/hooks/useUserInfo.js:24-46 | a missing document deletes the entry and shows nothing; otherwise the entry is written exactly when absent or different |
| UserInfo.UserInfoCache.OnError | src/hooks/useUserInfo.js:47-56 | the cached info if any, otherwise none |
| UserInfo.UserInfoCache.Clear | src/hooks/useUserInfo.js:71-77 | an id removes only that key; no id empties the cache |
| UserInfo.ClearOneKeepsOthers | src/hooks/useUserInfo.js:71-77 | clearing one id leaves every other entry as it was |
| Pwa.InstallResult | src/hooks/usePWA.js:37-58 | success exactly when a prompt is held and accepted; a missing prompt is 'Install prompt not available' |
| Pwa.InstallState.constructor | src/hooks/usePWA.js:4-12 | standalone display mode starts installed |
| Pwa.InstallState.BeforeInstallPrompt | src/hooks/usePWA.js:15-19 | stores the prompt and makes the app installable |
| Pwa.InstallState.AppInstalled | src/hooks/usePWA.js:22-26 | installed, not installable, prompt dropped |
| Pwa.InstallState.Install | src/hooks/usePWA.js:37-58 | accepted clears the prompt and marks the app installed; any failure changes no state |
| ServiceWorker.CacheFor | public/sw.js:120-122 | documents and '.html' URLs go to the static cache, everything else to the dynamic one |
| ServiceWorker.BypassedNeverIntercepted | public/sw.js:59-70 | non-GET requests and Firebase/Google origins are never intercepted or stored |
| ServiceWorker.StoresOnlyGoodResponses | public/sw.js:73-126 | only network responses are stored: status 200 for images, status 200 and type 'basic' otherwise, in the matching cache |
| ServiceWorker.CacheHitIgnoresNetwork | public/sw.js:73-108 | cache first: a hit answers with the cached response whatever the network does |
| ServiceWorker.OfflineAnswers | public/sw.js:90-138 | offline and uncached: images get 404, HTML requests get the cached '/index.html', the rest get 503 |
| ServiceWorker.KeepCurrent | public/sw.js:39-48 | exactly the current cache names are kept |
| ServiceWorker.CacheStorage.Open | public/sw.js:75 | opening creates a missing cache and changes no entry |
| ServiceWorker.CacheStorage.Put | public/sw.js:85-126 | stores one response and changes no other entry |
| ServiceWorker.CacheStorage.Delete | public/sw.js:44 | removes that cache and its name |
| ServiceWorker.CacheStorage.Activate | public/sw.js:37-51 | deletes exactly the caches whose names are not current; the kept caches keep their entries |
| ServiceWorker.CacheStorage.Fetch | public/sw.js:54-141 | answers as the routing decision says and stores the network response only where it says |
| ServiceWorker.ActivationLeavesCurrentOnly | public/sw.js:39-48 | after activation every remaining name is current and every current name is kept |
| PushTokens.SaveToken | src/services/pushNotificationService.js:73-104 | signed out or unreadable writes nothing; a missing document is created with [token]; an existing list gets the token appended only when absent |
| Common.RemoveAllConcat | src/services/pushNotificationService.js:123 | `filter(t => t !== token)` distributes over concatenation, so the kept values stay in order |
| PushTokens.DeleteWritesFilteredList | src/services/pushNotificationService.js:109-140 | both delete branches write the filtered list: no copy of the token, every other token's count kept, and for every split of the stored list the kept tokens of the first part come before those of the rest |
| PushTokens.NoUserNoWrite | src/services/pushNotificationService.js:77-80 | signed out, neither save nor delete writes |
| PushTokens.SaveStoresTokenOnce | src/services/pushNotificationService.js:86-99 | after a save the token is stored, a duplicate-free list stays duplicate-free, and saving again writes nothing |
| PushTokens.SaveThenDeleteRestores | src/services/pushNotificationService.js:73-140 | saving a new token then deleting it restores the stored list |
| PushTokens.UserTokens | src/services/pushNotificationService.js:161-176 | the stored list, or [] when the document is missing or the read fails |
| PushFunction.BuildPayload | functions/index.js:34-60 | title, body, link and tag default to 'Social Custom', the fixed body, '/' and 'social-custom-notification'; the web-push copy agrees |
| PushFunction.FailedAt | functions/index.js:69-74 | exactly the tokens at failed positions |
| PushFunction.CollectFailed | functions/index.js:69-74 | the `forEach` push loop computes exactly `FailedAt` |
| PushFunction.AllSucceeded | functions/index.js:68 | all positions succeeded exactly when none failed |
| PushFunction.SuccessesPlusFailures | functions/index.js:68-74 | each position counts once, as a success or a failed token |
| PushFunction.ValidTokens | functions/index.js:77 | exactly the tokens not failed |
| PushFunction.ValidTokensConcat | functions/index.js:77 | the filter distributes over concatenation |
| PushFunction.ValidKeepsOrder | functions/index.js:77 | surviving tokens keep their stored order (for every split, the survivors of the first part come first) and their counts; failed ones vanish |
| PushFunction.OnCreate | functions/index.js:14-90 | no document or an empty list sends nothing; a failed read or send is reported; the list is rewritten only when some send failed, and then holds exactly the unfailed tokens |
| PushFunction.FailureCountIffFalse | functions/index.js:68-76 | a rewrite is needed exactly when the failed list is non-empty |
| PushFunction.PruneDropsExactlyFailed | functions/index.js:76-81 | a token is kept exactly when every position it was sent to succeeded |
| SendPush.BuildMessage | api/send-push.js:37-67 | the body is `body`, else `message`, else the default; title, icon, badge, tag and link fall back to their defaults, and type, relatedUserId, relatedPostId and notificationId to '' |
| SendPush.Messages | api/send-push.js:37-67 | one message per token, in order |
| SendPush.FailedTokens | api/send-push.js:89-92 | never more failed tokens than tokens, and never an empty token |
| SendPush.FailedTokensExactly | api/send-push.js:89-92 | a token is reported failed exactly when non-empty and some send of it was fulfilled without success |
| SendPush.TallyBounded | api/send-push.js:88-92 | successes + failures + rejected sends ≤ number of tokens |
| SendPush.Handle | api/send-push.js:4-104 | OPTIONS is 200, other non-POST is 405, a missing notification or bad tokens is 400, a missing key is 500, all before any send; otherwise 200 with the tally |
| PostCard.InitialLikeAfterToggle | src/components/posts/PostCard.jsx:31-34 | once `likePost` has written the toggled list, a card built from it shows the flipped heart and the optimistic count of the click, when the user was in the list at most once |
| PostCard.FailedUnlikeOvercounts | src/components/posts/PostCard.jsx:54-60 | after a failed unlike the count ends one above its pre-click value |
| PostCard.Optimistic | src/components/posts/PostCard.jsx:44-47 | the count moves by one, down exactly for an unlike |
| PostCard.OptimisticMatchesServer | src/components/posts/PostCard.jsx:44-51 | the optimistic count equals the length of the list `likePost` writes, when the user appears at most once |
| PostCard.LikeButton.Click | src/components/posts/PostCard.jsx:36-51 | signed out only raises the alert; in flight is ignored; otherwise flips the heart, moves the count and requests with the pre-click `isLiked` |
| PostCard.LikeButton.Settle | src/components/posts/PostCard.jsx:51-63 | a failure restores both the heart and the count from before the click; the error message defaults |
| PostCard.ConfirmDelete | src/components/posts/PostCard.jsx:71-88 | only the owner reaches the delete; a failed delete reports its message, or the default text when it has none |
| ChatInput.ImageRejection | src/components/chat/ChatInput.jsx:154-189 | refused exactly when above 10 MB or not one of the five types; size is checked first |
| ChatInput.Sanitize | src/components/chat/ChatInput.jsx:97 | every character outside [a-zA-Z0-9.-] becomes '_', and nothing else changes |
| ChatInput.SanitizeIsIdempotent | src/components/chat/ChatInput.jsx:97 | a sanitised name is sanitised already |
| ChatInput.UploadPath | src/components/chat/ChatInput.jsx:137 | the path is folder/stamp_ then the sanitised name |
| ChatInput.ChoicePriority | src/components/chat/ChatInput.jsx:44-68 | nothing is sent when disabled or empty; image beats file beats text; text goes out trimmed and non-blank |
| ChatInput.IdeographicSpaceIsBlank | src/components/chat/ChatInput.jsx:46 | a text of U+3000 spaces is blank and sends nothing; trailing U+3000 is trimmed off |
| ChatInput.Composer.SelectImage | src/components/chat/ChatInput.jsx:154-189 | an accepted image is selected; a refused one keeps the selection and raises the alert; the input is reset |
| ChatInput.Composer.SelectFile | src/components/chat/ChatInput.jsx:191-209 | only the 50 MB size is checked |
| ChatInput.Composer.InsertEmoji | src/components/chat/ChatInput.jsx:211-215 | appends the emoji and closes the picker |
| ChatInput.Composer.Send | src/components/chat/ChatInput.jsx:44-152 | follows the priority; text is cleared before sending; a sent selection is cleared only when the callback succeeds |
| ChatInput.Composer.SendSelectedImage | src/components/chat/ChatInput.jsx:70-121 | no handler, too large, a throwing upload or an empty URL sends nothing, with its alert; otherwise sends the URL and name |
| ChatInput.Composer.SendSelectedFile | src/components/chat/ChatInput.jsx:123-152 | too large or a throwing upload sends nothing, with its alert; otherwise sends URL, name and size |
| Settings.StoredPhoto | src/pages/SettingsPage.jsx:73-76 | the profile photo, else the account photo, else none |
| Settings.UpdateFor | src/pages/SettingsPage.jsx:94-104 | trimmed name and bio; the photo only when an avatar was uploaded |
| Settings.UpdateIsStable | src/pages/SettingsPage.jsx:94-104 | submitting the stored values again writes the same name and bio |
| Settings.ProfileForm.Load | src/pages/SettingsPage.jsx:29-37 | fills the form from the profile |
| Settings.ProfileForm.SelectAvatar | src/pages/SettingsPage.jsx:39-71 | above 5 MB or a wrong type raises the alert and keeps the selection; otherwise selects and previews |
| Settings.ProfileForm.RemoveAvatar | src/pages/SettingsPage.jsx:73-76 | clears the selection and shows the stored photo |
| Settings.SubmitOutcome | src/pages/SettingsPage.jsx:78-148 | signed out does nothing; a blank name alerts and writes nothing; a failed avatar upload alerts with its message (or the default) and writes nothing; otherwise `UpdateFor` is written, and the avatar is cleared with the success alert exactly when the write succeeds, else the write's message (or the default) is shown |
| Settings.ProfileForm.Submit | src/pages/SettingsPage.jsx:78-148 | applies `SubmitOutcome` to the form: returns its write, shows its alert, clears the chosen avatar when it says so, and keeps the name, bio and preview |
| ToastNotification.LinkOf | src/components/notifications/ToastNotification.jsx:34-50 | a stored link wins; like and comment go to the post, message to the chat, follow to the profile, anything else to '/' |
| ToastNotification.ClickAndCloseAgree | src/components/notifications/ToastNotification.jsx:52-71 | both mark read exactly when unread with a handler; both close; only a click navigates |
| ToastNotification.DisplayName | src/components/notifications/ToastNotification.jsx:73 | live name, else stored name, else the fixed string |
| ToastNotification.ClickMarksOnlyThisRead | src/components/notifications/ToastNotification.jsx:52-62 | a click on an unread toast makes that notification read and changes no other |
| FollowSuggestions.MoreFollowersIsPreorder | src/components/profile/FollowSuggestions.jsx:51-55 | the follower comparator is a total preorder |
| FollowSuggestions.EligibleUsers | src/components/profile/FollowSuggestions.jsx:43-48 | exactly the users with a uid who are neither the viewer nor followed |
| FollowSuggestions.SuggestionsAreTopEligible | src/components/profile/FollowSuggestions.jsx:38-57 | at most `maxSuggestions` eligible users, most followed first, none left out with more followers, ranking a permutation of the eligible users |
| FollowSuggestions.WithoutUid | src/components/profile/FollowSuggestions.jsx:81 | drops exactly that uid |
| FollowSuggestions.SuggestionPanel.Load | src/components/profile/FollowSuggestions.jsx:19-66 | stores the following set and the suggestions; a failed read keeps the old ones |
| FollowSuggestions.SuggestionPanel.Follow | src/components/profile/FollowSuggestions.jsx:68-95 | signed out, nothing is written; the `following` write lands first and the `followers` write only after it; only after both is the user followed, no longer suggested, and a 'follow' notification to them requested |
| FollowSuggestions.SuggestionPanel.Renders | src/components/profile/FollowSuggestions.jsx:97-99 | renders only signed in, loaded, with suggestions |
| NewChat.NameLeIsPreorder | src/components/chat/NewChatModal.jsx:39-43 | the name comparator is a total preorder |
| NewChat.ListableUsers | src/components/chat/NewChatModal.jsx:38 | exactly the users with a uid other than the viewer |
| NewChat.ListingIsSortedPrefix | src/components/chat/NewChatModal.jsx:37-44 | the listing is the first min(50, n) entries of the name-sorted listable users, and no user left out sorts before a listed one |
| NewChat.ListingIsSortedAndCapped | src/components/chat/NewChatModal.jsx:33-44 | the first min(50, n) of the n listable users in lower-cased name order: the length is exact, the list is ordered, no listable user left out sorts before a listed one, and the sorted list is a permutation of the listable users |
| NewChat.SearchResults | src/components/chat/NewChatModal.jsx:64-74 | exactly the non-viewer users whose name or e-mail contains the query, case-insensitively, uncapped |
| NewChat.SearchAddsNothing | src/components/chat/NewChatModal.jsx:64-74 | search adds no user |
| NewChat.SelectUser | src/components/chat/NewChatModal.jsx:84-96 | a found chat is handed on; signed in, the modal closes even on failure |
| NewChat.UserPicker.FetchUsers | src/components/chat/NewChatModal.jsx:26-52 | stores the listing; a failed read keeps the list |
| NewChat.UserPicker.OnOpenChange | src/components/chat/NewChatModal.jsx:17-24 | closing or signing out clears the query and the list |
| NewChat.UserPicker.Search | src/components/chat/NewChatModal.jsx:54-82 | a blank query falls back to the listing; otherwise stores the search results |
| ChatList.EntryOf | src/hooks/useChats.js:28-49 | an entry exists exactly when another participant exists with a user document; unread defaults to 0 and lastMessage to '' |
| ChatList.Entries | src/hooks/useChats.js:26-53 | exactly the entries of the chats that have one |
| ChatList.NewerFirstNotTransitive | src/hooks/useChats.js:53-56 | the comparator is not a total preorder |
| ChatList.DatedSortNewestFirst | src/hooks/useChats.js:53-56 | sorting dated entries puts the newest first |
| ChatList.ChatEntriesOrdered | src/hooks/useChats.js:53-56 | the stored list is a permutation of the entries, newest first when all are dated |
| ChatList.SnapshotAsWritten | src/hooks/useChats.js:27-34 | as written, the callback stores nothing exactly when some chat has another participant |
| ChatList.AsWrittenStoresOnlyEmpty | src/hooks/useChats.js:27-56 | when the as-written callback stores a list, it is the intended (empty) list |
| ChatList.ShadowedDocLosesChats | src/hooks/useChats.js:27-34 | one ordinary chat: intended one entry, as written nothing stored |
| ChatList.ChatListState.SignedOut | src/hooks/useChats.js:12-15 | loading ends and the list is kept |
| ChatList.ChatListState.OnSnapshot | src/hooks/useChats.js:25-58 | stores the sorted entries and ends loading |
| ChatList.ChatListState.OnError | src/hooks/useChats.js:59-65 | the list is kept and loading ends |
| Notifications.UnreadCount | src/hooks/useNotifications.js:32 | zero exactly when every notification is read |
| Notifications.MarkAsRead | src/hooks/useNotifications.js:45-56 | signed out, nothing; otherwise the notifications with that id become read with every other field kept, and every other notification is unchanged |
| Notifications.UnreadIds | src/hooks/useNotifications.js:62 | exactly the ids of unread notifications |
| Notifications.WithRead | src/hooks/useNotifications.js:58-72 | the batch sets `read` on exactly the notifications whose id it names, in place and in order |
| Notifications.MarkAllAsRead | src/hooks/useNotifications.js:58-72 | signed out, nothing; otherwise no unread notification remains and only `read` changes |
| Notifications.MarkAsReadCount | src/hooks/useNotifications.js:45-56 | the unread count drops by the unread notifications with that id |
| Notifications.UnreadCountAppend | src/hooks/useNotifications.js:32 | a new unread notification adds one |
| ChatService.ChatsOf | src/services/chatService.js:7-10 | exactly the chats of the first user |
| ChatService.FirstReusable | src/services/chatService.js:13-16 | `find`: a chat with the second user and two participants, with no such chat before it; none exactly when no chat qualifies |
| ChatService.Fresh | src/services/chatService.js:22-31 | participants [u1, u2], empty lastMessage, both counters 0 |
| ChatService.GetOrCreateChat | src/services/chatService.js:4-38 | a failure returns its message; a reusable chat is returned without a write; otherwise a fresh chat is written |
| ChatService.ReuseIffShared | src/services/chatService.js:13-20 | no write exactly when a two-person chat of both users exists; its id is returned |
| ChatService.CreatedChatIsFoundFromEitherSide | src/services/chatService.js:4-38 | after a creation, asking again from either side writes nothing |
| Avatar.Split | src/components/ui/Avatar.jsx:19 | pieces hold no space |
| Avatar.JoinSplit | src/components/ui/Avatar.jsx:19 | joining the pieces with spaces gives the name back |
| Avatar.FirstsAreWordStarts | src/components/ui/Avatar.jsx:18-21 | the first letters of the pieces are the word starts |
| Avatar.Initials | src/components/ui/Avatar.jsx:16-24 | at most 2 characters; a falsy name is '?' |
| Avatar.InitialsOfName | src/components/ui/Avatar.jsx:16-24 | the upper-cased first letters of the first two words; empty exactly for a name of spaces only |
| Avatar.NoWordStartIffSpaces | src/components/ui/Avatar.jsx:18-23 | a name has no word start exactly when it is made of spaces only |
| Avatar.AvatarImage.OnError | src/components/ui/Avatar.jsx:26-29 | marks the error and clears the loaded flag |
| Avatar.AvatarImage.OnLoad | src/components/ui/Avatar.jsx:31-34 | marks loaded and clears the error |
| Avatar.AvatarImage.Render | src/components/ui/Avatar.jsx:46-56 | the image exactly when there is a source and no error, faded until loaded; the initials otherwise |
| Sidebar.HomeOnlyExact | src/components/layout/Sidebar.jsx:21-22 | '/' is active only on '/'; other items exactly on a prefix |
| Sidebar.PrefixIsRaw | src/components/layout/Sidebar.jsx:22 | '/chatroom' activates '/chat' |
| Sidebar.ActiveItems | src/components/layout/Sidebar.jsx:21-22 | exactly the active menu paths |
| Sidebar.AtMostOneActive | src/components/layout/Sidebar.jsx:8-22 | the four menu paths never highlight two items |
| NotificationService.RelatedFields | src/services/notificationService.js:13-27 | the related name defaults to 'Người dùng' and stays null without a related user or on a failed lookup |
| NotificationService.CreateNotification | src/services/notificationService.js:4-50 | a missing userId or unknown recipient fails with no write; a failed read or write returns its message |
| NotificationService.RecordFields | src/services/notificationService.js:29-41 | the record is unread and stores null for missing optional fields |
| NotificationService.CreatedRaisesUnread | src/services/notificationService.js:39 | a created notification raises its recipient's unread count by one |

## Left out

- Firestore, FCM, Cloudinary and fetch calls. Reads are inputs and writes are results. Subscriptions are modelled by their callbacks only.
- `serverTimestamp()` and other creation times are left out of the records. Timestamps are optional milliseconds.
- Races between read and write, and the interleaving of asynchronous calls.
- Clocks, timers and debounce. This covers the 5 s toast auto-close, `Date.now()` in upload paths (taken as a parameter), `window.location.reload` and the settings `setTimeout`.
- `formatFileSize` and other floating point.
- `localeCompare` is approximated by code-point order. Case mapping is ASCII only. Strings are sequences of code points rather than UTF-16 units. This matters for astral characters in `getInitials`, in the link display text, and in ChatInput.Sanitize and ChatInput.UploadPath: the source's file-name regex has no `u` flag, so it replaces each UTF-16 half of an astral character with its own '_' ("😀.png" becomes "__.png"), while the model writes one '_'.
- The internals of the URL regular expression. Its matches are an input of ascending, non-empty, non-overlapping spans.
- Linkify.HasLinks: the matcher's answer for a search from `lastIndex` is an input, so the model does not tie it to the spans `linkifyText` uses.
- Posts.DeleteComment requires that every reply's stored `level` is above its parent's. This is stronger than what the source needs, which is only that `replyTo` links have no cycle: an acyclic thread whose stored levels do not rise along `replyTo` (written by something other than these hooks) is also excluded. A `replyTo` cycle makes the source recurse until the stack overflows, and that failure is not modelled. Every write the hooks make keeps this condition.
- CommentThreads.Render, CommentThreads.RenderThread, CommentThreads.ReplyIsDeeper, and CommentThreads.ThreadIsAnchored require the same rising-level condition (`Renderable`), and CommentThreads.RenderLevelIsStoredLevel requires it as part of the thread invariant, for the same reason and with the same gap.
- Posts.LikePost, Posts.AddComment, Posts.ReplyComment, Posts.ReactToComment and Posts.DeleteComment: the post read is a document or `None`. A read or write that throws, which the source answers with `{ success: false, error: error.message }`, is not modelled.
- Messages.SendMessage, Messages.ReactToMessage and Messages.DeleteMessage: the chat and message reads are values. A Firestore call that throws, which the source answers with `{ success: false, error: error.message }`, is not modelled.
- Posts: `createPost`, the feed subscription and `editMessage`-style edits are not part of this model.
- Messages: `sendMessage` on a chat document that does not exist (its write then fails) is not modelled separately. The message subscription is not part of this model.
- ChatList.ChatEntriesOrdered: the order is claimed only when every chat carries `updatedAt`. Otherwise the comparator is not a total order and only the permutation is claimed.
- ChatList: a chat document without `participants` makes the source throw. The model takes participants as always present.
- Sorting: stability is not proved. Only sortedness and permutation are proved.
- ServiceWorker: the install-time `addAll` of static assets and the message handlers are not part of this model.
- PushFunction: a failed rewrite of the token list is not modelled.
- SendPush: a body that cannot be destructured (a 500 from the outer catch) is not modelled. The per-token FCM fetch is a parameter.
- NotificationService: `type`, `title` and `message` are taken as strings. Firestore rejecting `undefined` values is not modelled.
- ChatInput: the `uploading` guard and the FileReader timing of previews are not modelled.
- Presentation-only parts are not modelled. This includes the '99+' badge caps, modals and animations.

## Findings

| source | as written | input that shows it | evidently intended | confidence | as-written member | corrected member |
|---|---|---|---|---|---|---|
| src/components/posts/PostCard.jsx:54-60 | a failed call sets `likeCount` to the pre-click count when the click was a like, and to the pre-click count + 1 when it was an unlike | the viewer liked the post, count 1; an unlike shows 0; the call fails; the heart is filled again next to 2 | restore the count from before the click in both directions | high, not executed | PostCard.FailedUnlikeOvercounts | PostCard.LikeButton.Settle |
| src/components/notifications/NotificationManager.jsx:9-20 | a candidate is any unread notification not in the current 3 toasts, and each push re-runs the effect | four unread notifications: every push evicts an unread toast, which is a candidate again at once, so the effect never settles | toast each notification once, so the effect settles | high, not executed | Toasts.CandidatesNeverRunOut | Toasts.OnceToastQueue.Receive |
| src/hooks/useChats.js:27-34 | the `map` callback's parameter `doc` hides the imported `doc` function, so `doc(db, 'users', id)` throws for every chat with another participant; `Promise.all` rejects before `setChats` and `setLoading(false)` | one chat with participants [me, other] whose user document exists: the intended list has one entry; as written nothing is stored and loading never ends | look the user up with the imported `doc` and store the sorted entries | high, not executed | ChatList.ShadowedDocLosesChats | ChatList.ChatListState.OnSnapshot |
