# VideoTube client core, modelled in Dafny

VideoTube is a video-sharing web client written in React. This project models the client's core:

- **Session.** The `AuthProvider` context holds the stored token, the current user and the loading flag, and rehydrates the user from the token.
- **Route table.** `AppRoutes` decides whether a path shows the spinner, a bare page, a page inside the navigation layout, or a redirect.
- **Screens.** The watch page (likes, subscription, comments), the watch history, the home feed, the community feed, the dashboard, the playlist manager, the sign-up form and the change-password dialog.
- **Formatters and API wrappers.** The duration and relative-date formatters, the video card, the navigation shell, and the query and URL builders of the videos API wrapper.

How the client is modelled:

- Pure helpers become Dafny functions with lemmas about them.
- A component whose hooks update state becomes a `class`. Its `useState` variables are fields, and each event handler or effect is a `method` with a `modifies` frame.
- Every awaited REST call is a parameter of type `Outcome<T>`. `Success(value)` is the unwrapped `data` of the reply. `Failure(message)` carries the `message` field of the error, when there is one.
- A handler runs to completion as one atomic step. A refetch that a handler starts without awaiting is applied after the handler's own updates.

Each operation is tied to an independent statement of what it computes:

- Durations and relative dates read back to the number or bucket they were made from.
- Query builders read back through `Lookup`.
- Video routes read back the id.
- The sign-up payload is exactly the truthy fields, in declaration order.
- Comment edits and deletes are stated against `EditById` and `DeleteById`.
- Toggling a like twice restores the state.
- Each navigation item is tied to the route table.

## Model

| member | source | states |
|---|---|---|
| Wrappers.MessageOr | src/pages/Playlist.jsx:31 | the backend's message when it is a non-empty string, else the fallback; never empty when the fallback is not |
| Text.DigitChar | src/pages/WatchHistory.jsx:49 | the decimal digit character of a value below ten |
| Text.DigitValue | src/pages/WatchHistory.jsx:49 | the value of a digit character is below ten |
| Text.NatToString | src/pages/WatchHistory.jsx:49 | `toString` of a natural number is a non-empty run of digits, one digit exactly when the number is below ten |
| Text.ParseNatToString | src/pages/WatchHistory.jsx:49 | reading the decimal text of a number back gives the number |
| Text.NatToStringInjective | src/pages/WatchHistory.jsx:49 | distinct numbers have distinct decimal texts |
| Text.IntToString | src/api/videos.js:44-45 | `toString` of an integer: the digits, preceded by "-" when negative |
| Text.DigitRun | src/pages/WatchHistory.jsx:49 | the longest digit prefix of a text: all digits, followed by a non-digit or the end |
| Text.DigitRunOfNumber | src/pages/WatchHistory.jsx:49 | the digit prefix of a number's text followed by a non-digit is exactly that text |
| Text.DigitRunAfterDigits | src/pages/WatchHistory.jsx:49 | the digit prefix of digits followed by a non-digit is exactly those digits |
| Text.PadStart2 | src/pages/WatchHistory.jsx:49 | `padStart(2, '0')`: texts of two or more characters unchanged, shorter ones left-padded with '0' to length two |
| Text.TrimStart | src/api/videos.js:50-51 | removes exactly the leading whitespace: the result is a suffix, what was dropped is all whitespace, and the result does not start with whitespace |
| Text.TrimEnd | src/api/videos.js:50-51 | removes exactly the trailing whitespace, symmetrically |
| Text.Trim | src/api/videos.js:50-51 | `String.prototype.trim`: `TrimStart` after `TrimEnd`; `TrimProperties` states when the result is empty |
| Text.TrimProperties | src/pages/Watch.jsx:165 | `!s.trim()` holds exactly for all-whitespace texts; a non-blank text trims to one with no whitespace at either end |
| AuthContext.NoTokenNotAuthenticated | src/context/AuthContext.jsx:51 | without a token the session is never authenticated; with a non-empty token it is authenticated exactly when a user is loaded |
| AuthContext.AuthProvider.IsAuthenticated | src/context/AuthContext.jsx:51 | `!!token && !!user` |
| AuthContext.AuthProvider.constructor | src/context/AuthContext.jsx:7-9 | the token is the stored entry when that is non-empty, else none; no user; loading |
| AuthContext.AuthProvider.Rehydrate | src/context/AuthContext.jsx:12-30 | without a token nothing but loading changes; with one, a fetched user is installed, and a rejected fetch clears the store, the token and the user; loading ends false |
| AuthContext.AuthProvider.Login | src/context/AuthContext.jsx:32-39 | store and token become the new token; a supplied user replaces the old one, otherwise the old one stays; the rehydrate effect fires exactly when the token changed |
| AuthContext.AuthProvider.Logout | src/context/AuthContext.jsx:41-45 | store, token and user are all cleared; loading is untouched |
| AuthContext.AuthProvider.UpdateUser | src/context/AuthContext.jsx:47-49 | the user is replaced, nothing else changes |
| AuthContext.ValidTokenScenario | src/context/AuthContext.jsx:7-30 | a stored non-empty token whose user fetch succeeds ends authenticated with that user and not loading |
| AuthContext.RejectedTokenScenario | src/context/AuthContext.jsx:18-24 | a stored token whose user fetch fails ends in exactly the logged-out state |
| AuthContext.LoginThenRehydrate | src/context/AuthContext.jsx:32-39 | after logging in with a new token and the effect's fetch, the session holds that token in store and state and the fetched user |
| AppRoutes.ProtectedRoute | src/App.jsx:22-34 | spinner while loading; the children when authenticated; otherwise a redirect to "/login" |
| AppRoutes.ProtectedLayoutRoute | src/App.jsx:37-45 | the screen inside the layout exactly when not loading and authenticated; otherwise the spinner or the login redirect |
| AppRoutes.HomeRoute | src/App.jsx:48-70 | spinner exactly while loading; home inside the layout for a signed-in user; bare home for a guest |
| AppRoutes.Match | src/App.jsx:84-165 | the route table: any screen it selects has exactly the given path as its own path (`PathOf`); `MatchPathOf` proves the converse |
| AppRoutes.MatchPathOf | src/App.jsx:86-156 | every screen's route path is matched back to that screen (path parameters included) |
| AppRoutes.AppRoutes | src/App.jsx:72-167 | spinner while loading; a layout page only for an authenticated user; redirects only to "/" or "/login" |
| AppRoutes.AuthFormsForGuestsOnly | src/App.jsx:89-96 | "/login" and "/register" show their forms to guests and redirect signed-in users to "/" |
| AppRoutes.ProtectedScreens | src/App.jsx:98-159 | every protected screen's path shows it inside the layout when authenticated and redirects to "/login" otherwise |
| AppRoutes.CatchAllGoesHome | src/App.jsx:164 | a path no route matches redirects to "/" |
| ChangePassword.Validate | src/components/ChangePassword.jsx:34-47 | no error exactly when the new passwords match, have at least 6 characters and differ from the old one; mismatch is reported first, then length, then reuse |
| ChangePassword.SubmitDisabled | src/components/ChangePassword.jsx:292 | the submit button's `disabled` expression; `SubmitEnablement` relates it to `Validate` |
| ChangePassword.SubmitEnablement | src/components/ChangePassword.jsx:292 | an enabled button implies the passwords match; for a valid form the button is disabled exactly while loading or with an empty current password |
| ChangePassword.Checks | src/components/ChangePassword.jsx:77-83 | exactly five criteria |
| ChangePassword.CountTrue | src/components/ChangePassword.jsx:85 | `filter(Boolean).length`: zero exactly when no entry holds, the full length exactly when every one does |
| ChangePassword.GetPasswordStrength | src/components/ChangePassword.jsx:73-96 | the empty password scores 0 with empty caption and colour; otherwise the score is at most 5 and caption and colour are the level's |
| ChangePassword.CountTrueIsMultiplicity | src/components/ChangePassword.jsx:85 | the count is the number of `true` entries, whatever their positions |
| ChangePassword.StrengthIsMetCount | src/components/ChangePassword.jsx:76-85 | the score of a non-empty password is the number of the five criteria it meets, for every score from 0 to 5 |
| ChangePassword.StrengthCountsCriteria | src/components/ChangePassword.jsx:76-85 | the score is 5 exactly when all five criteria hold and 0 exactly when none does |
| ChangePassword.ChangePasswordDialog.constructor | src/components/ChangePassword.jsx:16-27 | empty form, not loading, no error, all three inputs hidden |
| ChangePassword.ChangePasswordDialog.TogglePasswordVisibility | src/components/ChangePassword.jsx:66-71 | flips the chosen input's visibility and leaves the other two and the form alone |
| ChangePassword.ChangePasswordDialog.HandleSubmit | src/components/ChangePassword.jsx:29-64 | a request is made exactly when validation passes, else the error is the first failing check's; success closes with the success notice, failure shows the backend message or the fallback; loading ends false |
| Watch.ToggleLike | src/pages/Watch.jsx:111-112 | the optimistic like: the flag flips and the count moves one step in its direction |
| Watch.ToggleLikeTwice | src/pages/Watch.jsx:111-125 | two optimistic toggles restore the flag and the count, which is what the rollback relies on |
| Watch.EditById | src/pages/Watch.jsx:186-192 | same length; comments with the id get the new content, all others are unchanged |
| Watch.DeleteById | src/pages/Watch.jsx:206 | no comment with the id remains, every other comment keeps its multiplicity, and the rest keep their order |
| Watch.DeleteAbsentId | src/pages/Watch.jsx:206 | deleting an id that no comment has leaves the list unchanged |
| Watch.WatchScreen.constructor | src/pages/Watch.jsx:36-51 | no video, loading, no error, no comments, not liked, zero likes, not subscribed |
| Watch.WatchScreen.FetchComments | src/pages/Watch.jsx:86-96 | the reply's `docs`, or the empty list when it has none; a failure keeps the comments |
| Watch.WatchScreen.FetchVideo | src/pages/Watch.jsx:54-78 | on success the video, the like count (0 when absent), the liked and subscribed flags from either field, and the comments of the follow-up fetch; on failure the fixed error and nothing else; loading ends false |
| Watch.WatchScreen.HandleLike | src/pages/Watch.jsx:99-128 | no user or a failed request leaves like state as it was; a reply without data keeps the optimistic toggle; server values override the toggle when present (a zero count falls back to it) |
| Watch.WatchScreen.HandleSubscribe | src/pages/Watch.jsx:131-160 | without a user, a video or an owner id nothing changes; otherwise the server's flag, else the flipped flag, and a failure keeps it; the busy flag ends false |
| Watch.WatchScreen.HandleAddComment | src/pages/Watch.jsx:163-179 | a blank comment, no user or a failure changes nothing; success puts the new comment first and clears the input |
| Watch.WatchScreen.StartEditComment | src/pages/Watch.jsx:536-539 | the comment being edited and its current text |
| Watch.WatchScreen.HandleEditComment | src/pages/Watch.jsx:182-199 | a blank edit or a failure changes nothing; success is `EditById` with the edited text and ends editing |
| Watch.WatchScreen.HandleDeleteComment | src/pages/Watch.jsx:202-211 | unconfirmed or failed deletes change nothing; success is `DeleteById` |
| WatchHistory.JsRem60 | src/pages/WatchHistory.jsx:48 | JavaScript `%` by 60: Euclidean for non-negative operands, never positive for negative ones, always strictly between -60 and 60 |
| WatchHistory.PaddedTwoDigits | src/pages/WatchHistory.jsx:49 | a number below 100, padded, is two digits that read back as the number |
| WatchHistory.FormatDuration | src/pages/WatchHistory.jsx:45-50 | `formatDuration`: "0:00" for a missing or zero duration, else minutes, a colon and the padded remainder; `PositiveDurationReadsBack` and `ZeroDurationReadsBack` state what it shows |
| WatchHistory.DurationRoundTrip | src/pages/WatchHistory.jsx:45-50 | the `m:ss` text of any non-negative duration reads back as that duration |
| WatchHistory.PositiveDurationReadsBack | src/pages/WatchHistory.jsx:46-49 | the same, for positive durations |
| WatchHistory.ZeroDurationReadsBack | src/pages/WatchHistory.jsx:46 | "0:00" reads back as zero |
| WatchHistory.ClockReadBack | src/pages/WatchHistory.jsx:49 | minutes and padded seconds below 60 read back as `60 * minutes + seconds` |
| WatchHistory.ClockSplits | src/pages/WatchHistory.jsx:49 | any digits, a colon and two digits below 60 read back as the number of seconds they denote |
| WatchHistory.Bucket | src/pages/WatchHistory.jsx:52-63 | `formatDate`'s choice of unit: "Just now" exactly when the absolute difference is under a minute, otherwise a count of at least one; `BucketBounds` gives the count's range |
| WatchHistory.FormatDate | src/pages/WatchHistory.jsx:52-64 | the shown phrase of a date; its words are fixed by `FormatDateText` and it reads back by `FormatDateRoundTrip` |
| WatchHistory.BucketBounds | src/pages/WatchHistory.jsx:55-63 | each bucket's count is the whole number of its units in the absolute difference, within that unit's range; "Just now" exactly below a minute |
| WatchHistory.BucketSymmetric | src/pages/WatchHistory.jsx:55 | a date in the future gets the same bucket as one equally far in the past |
| WatchHistory.FormatDateText | src/pages/WatchHistory.jsx:60-63 | the shown text is the count and the unit word, singular for exactly one and plural above, then "ago"; "Just now" below a minute |
| WatchHistory.FormatDateRoundTrip | src/pages/WatchHistory.jsx:52-64 | the phrase produced for a date parses back to its bucket |
| WatchHistory.PhraseRoundTrip | src/pages/WatchHistory.jsx:60-63 | every bucket's phrase, with its singular or plural unit, parses back to the bucket |
| WatchHistory.FormatDateInjective | src/pages/WatchHistory.jsx:52-64 | two dates get the same phrase exactly when they fall in the same bucket |
| WatchHistory.PhraseSplits | src/pages/WatchHistory.jsx:60-62 | a phrase splits at the end of its leading number into that number and the rest |
| WatchHistory.WatchHistoryScreen.constructor | src/pages/WatchHistory.jsx:19-22 | empty history, loading, no error |
| WatchHistory.WatchHistoryScreen.FetchWatchHistory | src/pages/WatchHistory.jsx:25-43 | nothing happens without a user; success shows the reply's list (empty when absent) and clears the error, failure shows the backend message or the fallback and keeps the list; loading ends false |
| VideoCard.DurationBadge | src/components/VideoCard.jsx:24-29 | "0:00" for a missing or zero duration; the `m:ss` text of a positive duration reads back as it |
| VideoCard.UnitSeconds | src/components/VideoCard.jsx:36-41 | every unit is at least one second long |
| VideoCard.UnitWord | src/components/VideoCard.jsx:36-41 | every unit word ends in "s" |
| VideoCard.FormatTimeAgo | src/components/VideoCard.jsx:31-42 | `formatTimeAgo`; its unit and count are stated by `TimeAgoBounds` and its ending by `TimeAgoAlwaysPlural` |
| VideoCard.TimeAgoBounds | src/components/VideoCard.jsx:31-42 | the unit is chosen by the 60/3600/86400/2592000/31536000-second thresholds, and outside seconds the count is the whole number (at least one) of units elapsed |
| VideoCard.TimeAgoAlwaysPlural | src/components/VideoCard.jsx:36-41 | every phrase ends in "s ago", even for a count of one |
| VideoCard.TimeAgoAtMinute | src/components/VideoCard.jsx:34-37 | 59999 ms reads "59 seconds ago" and 60000 ms "1 minutes ago" |
| VideoCard.FormatViews | src/components/VideoCard.jsx:18-22 | a count below 1000 (or a missing one) is shown as a non-empty text, "0" for a missing one |
| VideoCard.FormatViewsReadsBack | src/components/VideoCard.jsx:21 | a count from 0 to 999 is shown as at most three digits that read back as the count |
| VideoCard.Card.constructor | src/components/VideoCard.jsx:15-16 | options menu closed, not hovered |
| VideoCard.Card.OptionsClick | src/components/VideoCard.jsx:44-47 | toggles the options menu |
| VideoCard.Card.OptionAction | src/components/VideoCard.jsx:49-53 | closes the options menu |
| VideoCard.Card.MouseEnter | src/components/VideoCard.jsx:58 | hovered, menu unchanged |
| VideoCard.Card.MouseLeave | src/components/VideoCard.jsx:59 | not hovered, menu unchanged |
| Layout.IsActivePath | src/components/Layout/Layout.jsx:41-46 | "/" is active only on "/" itself; any other item is active on paths that start with it |
| Layout.AtMostOneActive | src/components/Layout/Layout.jsx:30-46 | at most one navigation item is highlighted on any path |
| Layout.ActiveOnOwnPath | src/components/Layout/Layout.jsx:30-46 | every item is highlighted on its own path |
| Layout.NavTargets | src/components/Layout/Layout.jsx:30-39 | the first seven items lead to routed screens; "/like" matches no route and is redirected to "/" |
| Layout.GetImageUrl | src/components/Layout/Layout.jsx:57-65 | no image gives none; a text is itself; an object gives its `url`, else its `secure_url`, else none; never the empty text |
| Layout.UserPanel | src/components/Layout/Layout.jsx:67 | an avatar is shown exactly when there is a user, falling back to "/default-avatar.png" |
| Layout.Shell.constructor | src/components/Layout/Layout.jsx:27 | the mobile menu starts closed |
| Layout.Shell.ToggleMenu | src/components/Layout/Layout.jsx:48-50 | flips the mobile menu |
| Layout.Shell.OverlayClick | src/components/Layout/Layout.jsx:83-88 | the overlay is present exactly while the menu is open, and clicking it leaves the menu closed |
| Layout.Shell.NavClick | src/components/Layout/Layout.jsx:132-135 | goes to the item's path and closes the menu |
| Layout.Shell.LogoutClick | src/components/Layout/Layout.jsx:207-212 | logs the session out, closes the menu and goes to "/" |
| Layout.LogoutLeavesGuestHome | src/components/Layout/Layout.jsx:176-212 | after logout the user panel is gone and "/" shows the bare home page |
| VideosApi.OrDefault | src/api/videos.js:35-41 | the destructuring default: the given value, or the default when left out |
| VideosApi.Lookup | src/api/videos.js:54 | the first value of a key, none exactly when no pair has the key |
| VideosApi.AllVideosQuery | src/api/videos.js:34-55 | page, limit, sortBy and sortType with their defaults (1, 12, createdAt, desc), then the trimmed query when non-blank |
| VideosApi.UserVideosQuery | src/api/videos.js:4-31 | fails with "User ID is required" exactly when the user id is missing or empty; otherwise the same pairs with limit default 10 and userId fifth |
| VideosApi.UserQueryExtendsAllQuery | src/api/videos.js:4-55 | a user query is the general query with the user id inserted before the search term |
| VideosApi.LookupDistinct | src/api/videos.js:54 | with distinct keys, every pair is found by its own key |
| VideosApi.AllVideosQueryReadsBack | src/api/videos.js:43-52 | each parameter of the query string reads back as its option or default; the keys are distinct and there is no userId |
| VideosApi.GetAllVideos | src/api/videos.js:34-55 | sends exactly the general query's pairs |
| VideosApi.GetUserVideos | src/api/videos.js:4-31 | sends exactly the user query, or fails before any request |
| VideosApi.VideoRequest | src/api/videos.js:67-108 | fails with "Video ID is required" exactly when the id is missing or empty, otherwise uses the action's verb |
| VideosApi.VideoIdReadsBack | src/api/videos.js:67-108 | the path is the action's prefix, the id and its suffix, and the id can be cut back out |
| VideosApi.VideoRequestInjective | src/api/videos.js:67-108 | different ids give different requests |
| Home.HomeContent | src/pages/Home.jsx:38-40 | the landing page exactly when there is no user |
| Home.GuestSeesLanding | src/pages/Home.jsx:38-40 | a guest on "/" gets the bare home route, which shows the landing page |
| Home.Merge | src/pages/Home.jsx:58-62 | a reset or page 1 replaces the list; any other page is appended after the existing videos |
| Home.MergeAccumulates | src/pages/Home.jsx:58-62 | two appended pages keep all earlier videos in order |
| Home.HomeScreen.constructor | src/pages/Home.jsx:29-35 | empty list, loading, no error, page 1, more to load, no search, sorted by date |
| Home.HomeScreen.FetchVideos | src/pages/Home.jsx:43-72 | asks for 12 videos of the page in the current order; success merges and records the page and whether more remain; failure sets the fixed error and keeps the rest |
| Home.HomeScreen.Mount | src/pages/Home.jsx:75-78 | page 1, limit 12, the current order, no search term; after the reply the list, page, `hasMore` and error are those `fetchVideos` sets, and the search term and order stay |
| Home.HomeScreen.LoadMore | src/pages/Home.jsx:98-102 | fetches the next page exactly when nothing is loading and more remain; success appends it and sets the page and `hasMore`, failure sets the error and keeps the rest; otherwise nothing changes; the search term and order stay |
| Home.HomeScreen.HandleSearch | src/pages/Home.jsx:92-95 | page 1 of the trimmed search term; success replaces the list and sets the page and `hasMore`, failure sets the error and keeps the rest; loading ends false; the term and order stay |
| Home.HomeScreen.ClearSearch | src/pages/Home.jsx:230-233 | empties the term and fetches page 1 with no query; success replaces the list and sets the page and `hasMore`, failure sets the error and keeps the rest; the order stays |
| Home.HomeScreen.ChangeSort | src/pages/Home.jsx:75-78 | a new order refetches page 1 in that order and without the search term, with the same success and failure states as a fetch; the same order changes nothing else; the search term stays |
| Home.HandleVideoClick | src/pages/Home.jsx:81-89 | the click opens "/watch/" followed by the id, whatever the view recording did |
| Home.ClickOpensWatchPage | src/pages/Home.jsx:81-89 | that path is routed to the watch screen of the same id, inside the layout |
| CommunityTweets.Feed.constructor | src/pages/CommunityTweets.jsx:5-9 | no tweets, page 1 of 1, loading, no error |
| CommunityTweets.Feed.FetchTweets | src/pages/CommunityTweets.jsx:11-26 | asks for the page ten at a time; success takes tweets, page count and current page from the reply; failure sets the message or the fallback and keeps the rest |
| CommunityTweets.Feed.Mount | src/pages/CommunityTweets.jsx:28-30 | fetches page 1; the reply sets the tweets, page, page count and error as `fetchTweets` does, and a failure always shows an error |
| CommunityTweets.Feed.PrevClick | src/pages/CommunityTweets.jsx:70-76 | disabled exactly on page 1, changing nothing; otherwise fetches the page before, and the reply sets the tweets, page, page count and error as `fetchTweets` does |
| CommunityTweets.Feed.NextClick | src/pages/CommunityTweets.jsx:80-86 | disabled exactly on the last page, changing nothing; otherwise fetches the page after, and the reply sets the tweets, page, page count and error as `fetchTweets` does |
| CommunityTweets.PagerStaysInRange | src/pages/CommunityTweets.jsx:70-86 | within the range, the buttons ask only for existing pages |
| Dashboard.Field | src/pages/Dashboard.jsx:30-33 | a field of the user object, empty when missing |
| Dashboard.MergeForm | src/pages/Dashboard.jsx:50 | the form's name and email override the user's, every other field is kept |
| Dashboard.MergeFormIdempotent | src/pages/Dashboard.jsx:50 | merging twice is merging once; merging the user's own values changes nothing |
| Dashboard.DashboardScreen.constructor | src/pages/Dashboard.jsx:12-18 | no stats, no local user, empty form, not editing, loading, not uploading |
| Dashboard.DashboardScreen.DisplayUser | src/pages/Dashboard.jsx:93 | the local user when present, else the session's |
| Dashboard.DashboardScreen.Load | src/pages/Dashboard.jsx:20-42 | stats, user and form are set only when both fetches succeed; loading ends false |
| Dashboard.DashboardScreen.SetEditing | src/pages/Dashboard.jsx:188 | the edit and cancel buttons |
| Dashboard.DashboardScreen.HandleUpdate | src/pages/Dashboard.jsx:44-55 | requests exactly when a user is loaded; success merges the form into it, shares it with the session and ends editing; failure changes nothing |
| Dashboard.DashboardScreen.HandleFileUpdate | src/pages/Dashboard.jsx:57-73 | when upload and refetch both succeed, page and session get the fetched user; otherwise nothing; the busy flag ends false |
| Dashboard.DashboardScreen.HandleLogout | src/pages/Dashboard.jsx:75-83 | the session is logged out whether or not the server logout succeeded |
| Dashboard.SaveShowsForm | src/pages/Dashboard.jsx:44-55 | after a successful save, page and session show the form's name and email |
| Playlist.WriteFor | src/pages/Playlist.jsx:50-54 | an update of the edited id when there is one, else a create, always with the form |
| Playlist.PlaylistScreen.constructor | src/pages/Playlist.jsx:16-21 | empty list, loading, no error, form closed and empty, nothing edited |
| Playlist.PlaylistScreen.FetchPlaylists | src/pages/Playlist.jsx:24-35 | success replaces the list and clears the error; failure sets the message or the fallback and keeps the list; loading ends false |
| Playlist.PlaylistScreen.Mount | src/pages/Playlist.jsx:37-39 | without a user nothing changes; with one the list is fetched: success installs it and clears the error, failure keeps it and sets the backend message or the fallback; loading ends false |
| Playlist.PlaylistScreen.HandleSubmit | src/pages/Playlist.jsx:42-64 | sends nothing exactly when a field is blank; otherwise the `WriteFor` write; success closes and empties the form and refetches, failure shows the error and keeps the form |
| Playlist.PlaylistScreen.HandleDelete | src/pages/Playlist.jsx:67-78 | declined: nothing; success refetches; failure shows the error and keeps the list |
| Playlist.PlaylistScreen.StartEdit | src/pages/Playlist.jsx:81-85 | fills the form from the playlist, remembers its id and opens the form |
| Playlist.PlaylistScreen.OpenNew | src/pages/Playlist.jsx:94-98 | an empty open form with nothing edited |
| Playlist.PlaylistScreen.CloseForm | src/pages/Playlist.jsx:155 | closes the form |
| Playlist.EditThenSubmit | src/pages/Playlist.jsx:42-98 | editing then submitting updates that playlist; submitting a new empty form sends nothing |
| Register.Entries | src/pages/Auth/Register.jsx:5-11 | the five fields in declaration order |
| Register.KeepTruthy | src/pages/Auth/Register.jsx:16-18 | keeps exactly the entries with truthy values |
| Register.KeepTruthyKeepsOrder | src/pages/Auth/Register.jsx:16-18 | filtering preserves the declaration order |
| Register.FieldsInOrder | src/pages/Auth/Register.jsx:5-11 | the fields are listed in strictly increasing order |
| Register.PayloadShape | src/pages/Auth/Register.jsx:13-20 | the payload is exactly the truthy fields, each key once, in order; an empty name is left out, a chosen avatar file is in, a missing one is absent |
| Register.HandleSubmit | src/pages/Auth/Register.jsx:13-20 | the loop appends exactly the truthy fields in order |

## Left out

- Network I/O. Axios, the REST endpoints, `FormData` transport and response parsing are not modelled. Every awaited call is an `Outcome` parameter of the handler that awaits it.
- Timing. Async interleaving, React re-renders, the effect scheduler and stale closures are not modelled. A handler runs to completion as one step.
- Browser services. `localStorage` is the `store` field. `window.confirm` is a boolean parameter. `alert`, `console` and `navigate` are not modelled beyond the path a handler returns.
- Clocks and locales. `new Date()`, `toLocaleString` and `toLocaleDateString` are not modelled. The relative-date formatters take the time difference in milliseconds as an integer.
- VideoCard.FormatViews: returns no text for counts of 1000 and more, because the `toFixed(1)` "K"/"M" branches are floating-point formatting.
- VideoCard: the read-time badge built from `Math.random` is not modelled.
- Presentation: markup, styling and icons are not modelled. `LandingPage` is reduced to a marker.
- Thin screens. The video, tweet, subscription, comment and like list pages are mount points of the route table only.
- Percent-encoding. `URLSearchParams` and the request path are modelled as key/value pairs and plain text, without percent-encoding (WHATWG URL Standard, section 5.2).
- Router details. Case-insensitive matching and trailing slashes of React Router are not modelled. A path matches a route exactly, with `:param` standing for one non-empty segment.
- Text. Strings are sequences of characters, not UTF-16 code units. `length >= 6` and `length >= 8` count characters.
- `null` and `undefined` are the same `None`.
- VideosApi.OrDefault: a JavaScript destructuring default applies only to `undefined`. A `null` page makes `page.toString()` throw, and a `null` sortBy is sent as the text "null"; the model gives every missing argument its default instead.
- WatchHistory.FormatDuration and VideoCard.DurationBadge: durations are whole seconds. The two source formatters differ on fractional durations: WatchHistory keeps the fraction of `seconds % 60` (65.5 prints as "1:5.5"), while VideoCard floors it (65.5 prints as "1:05"). Neither fractional behaviour is modelled, and the model uses one formatter for both.
- WatchHistory.WatchHistoryScreen.FetchWatchHistory: `src/pages/WatchHistory.jsx` imports `getWatchHistory` from `src/api/auth.js`, which does not export it. As the source stands, the call can only fail (or the bundle does not build), so the `Success` branch models the function the page expects rather than one that exists.
- Dashboard.DashboardScreen.Load: a user object without `fullName` or `email` fills the form with "" rather than `undefined`.
- Uploading a video and the other write endpoints of `src/api/videos.js` beyond the five id-based requests are not modelled.
- The `useAuth` hook's "used outside a provider" error is not modelled.
- Register.HandleSubmit: the payload is stated, but the outcome of `registerUser`, and what an unhandled rejection does, are not.
- `src/pages/Auth/Login.jsx` is not part of this model.
- CommunityTweets.Feed.FetchTweets: the failure message is the error's own `message` rather than the backend's; the model passes it in the same `Outcome` slot.
