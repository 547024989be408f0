# Campaign details page: comment feed and donor list

A model of the state logic of the campaign details page of a crowdfunding
front end (`client/src/pages/CampaignDetails.jsx`). The page shows one
campaign. It holds two pieces of state:

- a comment feed, newest first, paged with a `CreatedAt` cursor, plus an input field for posting;
- the campaign's donor list, read from the chain gateway.

The page's hooks become the fields of the class `CampaignDetailsPage.CampaignDetails`:
`comments`, `lastCreatedAt`, `isLoadingComment`, `isDoneLoadingMore`,
`currentComment` and `donators`. The campaign the router passes in
(`state.title`, `state.pId`) is state too: the fields `title` and `pId`,
which a route change replaces while the page stays mounted. Its handlers become methods that update
these fields step by step. Each method is proved to follow a transition
function on values (`CommentFeed.ApplyFetch`, `LoadMore`, `Commit`,
`ValidateSubmit`, `ApplyReply`; `Donors.CommitContext`, `ApplyDonations`).
The lemmas about those functions state what the page does over whole runs
of events.

Service calls are not executed. A handler that issues a call returns the
call's arguments: the title and cursor of `getCommentCompaign(title, cursor)`, the
`PostRequest` given to `sendCommentCompaign`, or the campaign index given to
`getDonations`. The call's result comes in later as a separate completion
event. React effects are modelled as an explicit render-commit event. The
effect stores the dependency values it last ran with. It runs again only
when those values differ, which is React's rule for dependency lists.

Modules:

- `Wrappers`: `Option`.
- `JsSemantics`: `String.prototype.trim` with the ECMAScript whitespace set, truthiness of an optional string, and the loose `status == "201"`.
- `CommentFeed`: the feed state `Feed`, one function per event, the run functions `Run` and `Fetches`, and the lemmas.
- `Donors`: the donor state `Panel`, its two events, and the lemmas.
- `CampaignDetailsPage`: the page class.

Where the code differs from an idealised paginated-feed design, the model follows the code:

- An empty array from the page fetch is truthy. It is appended, and the feed is not marked exhausted. Only a falsy result (`null`, `undefined`, …) sets `isDoneLoadingMore`.
- The input is cleared after any reply, including a non-201 one. It is not cleared only when the post call itself throws, because then the handler stops at the `await`.
- A thrown page fetch leaves `isLoadingComment` set. Nothing resets it.
- Repeated load-more clicks are not guarded. No comment is de-duplicated by `ID`. Late responses are not discarded.
- Nothing resets the feed when the router hands the mounted page another campaign. The comment effect depends on the cursor only, so the change issues no fetch. The next load-more asks the new campaign's thread with the old campaign's oldest `CreatedAt`, and the answer is appended behind the old campaign's comments. A post goes to the new title. The donor effect does not depend on `pId` either, so the old donor list stays until the contract handle or the address changes.
- The load-more action is rendered whenever `isDoneLoadingMore` is false, even on an empty list. A click there throws at `comments.at(-1).CreatedAt` after the loading flag was set. The model keeps the flag set and the cursor unchanged, as React still applies the update queued before the throw.

## Model

| member | source | states |
|---|---|---|
| `JsSemantics.TrimStart` | client/src/pages/CampaignDetails.jsx:78 | leading whitespace removed: the result is a suffix of the input, what was dropped is all whitespace, and the result does not start with whitespace |
| `JsSemantics.TrimEnd` | client/src/pages/CampaignDetails.jsx:78 | trailing whitespace removed: the result is a prefix of the input, what was dropped is all whitespace, and the result does not end with whitespace |
| `JsSemantics.Trim` | client/src/pages/CampaignDetails.jsx:78 | `trim()`: the result is the slice of the input that starts after the leading whitespace that `TrimStart` drops; everything before and after that slice is whitespace, and a non-empty result starts and ends with a non-whitespace character |
| `JsSemantics.TrimEmptyIffBlank` | client/src/pages/CampaignDetails.jsx:78 | `!currentComment.trim()` holds exactly when the input is whitespace only (both directions) |
| `JsSemantics.IsWhitespace` | client/src/pages/CampaignDetails.jsx:78 | definition: the ECMAScript WhiteSpace and LineTerminator code points, which `trim` strips |
| `JsSemantics.IsBlank` | client/src/pages/CampaignDetails.jsx:78 | definition: every character is whitespace |
| `JsSemantics.SkipLeading` | client/src/pages/CampaignDetails.jsx:78 | the first non-whitespace index at or after the start; everything skipped is whitespace |
| `JsSemantics.SkipTrailing` | client/src/pages/CampaignDetails.jsx:78 | the end of a range once its trailing whitespace is dropped; everything dropped is whitespace and the last character kept is not |
| `JsSemantics.TrimIsEndOfStart` | client/src/pages/CampaignDetails.jsx:78 | `Trim` equals trimming the start and then the end, the order ECMAScript gives |
| `JsSemantics.IsTruthy` | client/src/pages/CampaignDetails.jsx:66 | definition: `undefined`, `null` and `""` are falsy, any other string is truthy |
| `JsSemantics.LooselyEquals201` | client/src/pages/CampaignDetails.jsx:98 | loose `== "201"`, computed directly: a numeric status matches exactly 201, a string status exactly `"201"` |
| `JsSemantics.DigitsValue` | client/src/pages/CampaignDetails.jsx:98 | definition: the decimal value of a digit string |
| `JsSemantics.StringToInteger` | client/src/pages/CampaignDetails.jsx:98 | definition: ECMAScript string-to-number for integer literals; surrounding whitespace ignored, blank is 0, optional sign; anything else is NaN |
| `JsSemantics.LooseEquals` | client/src/pages/CampaignDetails.jsx:98 | definition: ECMAScript loose equality of a number or string with a string |
| `JsSemantics.StringToInteger201` | client/src/pages/CampaignDetails.jsx:98 | `"201"` converts to the number 201 |
| `JsSemantics.LooseEquals201Agrees` | client/src/pages/CampaignDetails.jsx:98 | for every status, the direct test equals the general loose equality `status == "201"` |
| `CommentFeed.Initial` | client/src/pages/CampaignDetails.jsx:15-26 | the first render for a campaign title: no comments, cursor `""`, loading set, not done, empty input, effect not yet run |
| `CommentFeed.ShowsLoadMore` | client/src/pages/CampaignDetails.jsx:228 | definition: the load-more action is rendered exactly when the done flag is clear (`comments` is always a truthy array) |
| `CommentFeed.ApplyFetch` | client/src/pages/CampaignDetails.jsx:41-54 | a page (even an empty one) goes after the held comments, which keep their order; loading is cleared and the done flag kept. A falsy result keeps the comments, sets done and clears loading. A throw changes nothing, so loading stays as it was. Cursor and input are never touched |
| `CommentFeed.LoadMoreThrows` | client/src/pages/CampaignDetails.jsx:62 | definition: `comments.at(-1).CreatedAt` throws exactly when the list is empty |
| `CommentFeed.LoadMore` | client/src/pages/CampaignDetails.jsx:59-63 | sets loading. The cursor becomes the `CreatedAt` of the last (oldest) comment, or stays put when the list is empty and the click throws. Comments and the done flag are unchanged |
| `CommentFeed.Commit` | client/src/pages/CampaignDetails.jsx:40-57 | the comment effect fetches exactly when the cursor differs from the one it last ran with (always on mount), and then with the current title and cursor; afterwards it has run for the current cursor. A title change alone does not run it |
| `CommentFeed.ValidateSubmit` | client/src/pages/CampaignDetails.jsx:65-95 | no truthy address gives `NotLoggedIn`; with an address, a whitespace-only input gives `EmptyComment`; otherwise the request is `{user_id: address, post_id: current title, content: input}`, untrimmed. Each is stated in both directions |
| `CommentFeed.IsCreated` | client/src/pages/CampaignDetails.jsx:98 | definition: a reply that came back with `status == "201"` |
| `CommentFeed.ApplyReply` | client/src/pages/CampaignDetails.jsx:97-108 | a 201 reply puts exactly `response.data` in front; any other status keeps the comments. Any reply clears the input. A thrown call changes nothing. Cursor, done flag and loading flag are never touched |
| `CommentFeed.Step` | client/src/pages/CampaignDetails.jsx:15-108 | any event changes the list only by putting a posted comment in front or a page behind. The effect cursor moves only on a commit. The done flag becomes true exactly on a falsy fetch result and is never cleared. The title changes only on a route change |
| `CommentFeed.IssuedBy` | client/src/pages/CampaignDetails.jsx:56-57 | one event issues at most one comment fetch |
| `CommentFeed.CommentsGrowAtEnds` | client/src/pages/CampaignDetails.jsx:44-106 | after any run of events, the list is the posted comments (newest first), then the list held before, then the fetched pages in arrival order. Nothing is removed, reordered, de-duplicated or reset |
| `CommentFeed.DoneExactlyAfterFalsyFetch` | client/src/pages/CampaignDetails.jsx:44-48 | after any run, `isDoneLoadingMore` holds iff it held before or some fetch came back falsy. Once it is set, the load-more action (line 228) stays withdrawn |
| `CommentFeed.FetchesFollowCursorChanges` | client/src/pages/CampaignDetails.jsx:40-57 | over any run, two consecutive comment fetches never use the same cursor. The first differs from the cursor the effect last ran with. The effect ends up holding the last cursor fetched, or its old one if nothing was fetched |
| `CommentFeed.MountFetchesFirstPage` | client/src/pages/CampaignDetails.jsx:23-57 | the mount commit fetches the campaign's thread with cursor `""` |
| `CommentFeed.SameCursorLoadMoreFetchesNothing` | client/src/pages/CampaignDetails.jsx:57-62 | a load-more that yields the cursor the effect already ran with issues no fetch, and leaves the loading flag set |
| `CommentFeed.EmptyLoadMoreFetchesNothing` | client/src/pages/CampaignDetails.jsx:59-62 | on an empty, settled feed a load-more click and commit leave the cursor unchanged, issue no fetch, and leave the loading flag set |
| `CommentFeed.ThrownFetchKeepsLoading` | client/src/pages/CampaignDetails.jsx:42-53 | a thrown fetch changes no field, so a set loading flag stays set |
| `CommentFeed.EmptyPageKeepsFeedOpen` | client/src/pages/CampaignDetails.jsx:44-46 | an empty array adds nothing, clears loading, and does not withdraw the load-more action |
| `CommentFeed.RunAppend` | client/src/pages/CampaignDetails.jsx:40-108 | a run split in two ends where the second part, started from the end of the first, ends |
| `CommentFeed.FetchesAppend` | client/src/pages/CampaignDetails.jsx:40-57 | the fetches of a run split in two are those of the first part followed by those of the second, started from the end of the first |
| `CommentFeed.LoadMoreRound` | client/src/pages/CampaignDetails.jsx:43-62 | click, commit, completion on a settled feed: one fetch, for the current title with the oldest comment's `CreatedAt`, and its result applied to the clicked state |
| `CommentFeed.MountRound` | client/src/pages/CampaignDetails.jsx:40-57 | mount commit, then completion: one fetch, for the current title with the initial cursor, and its result applied |
| `CommentFeed.PaginationWalkthrough` | client/src/pages/CampaignDetails.jsx:40-63 | pages `[5,4]`, then `[3]` at cursor T4, then a falsy result at cursor T3. The end state is `[5,4,3]` with load-more withdrawn; the fetches asked the campaign's thread with cursors `""`, T4, T3 |
| `CommentFeed.FetchesKeepTitle` | client/src/pages/CampaignDetails.jsx:43 | while the router keeps the campaign, every fetch of a run asks that campaign's thread |
| `CommentFeed.RouteChangeResetsNothing` | client/src/pages/CampaignDetails.jsx:15-57 | a route change followed by a commit changes only the title and issues no fetch |
| `CommentFeed.LoadMoreAfterRouteChange` | client/src/pages/CampaignDetails.jsx:15-62 | after a route change, the next load-more round fetches the new title with the old campaign's oldest `CreatedAt`, and appends the answer behind the old campaign's comments |
| `CommentFeed.RunCons` | client/src/pages/CampaignDetails.jsx:40-108 | a run that starts with one event continues from that event's state, and its fetches are that event's followed by the rest's |
| `Donors.InitialPanel` | client/src/pages/CampaignDetails.jsx:21 | the first render: no donors, effect not yet run |
| `Donors.BackerCount` | client/src/pages/CampaignDetails.jsx:143 | definition: "Total Backers" is the length of the donor list |
| `Donors.CommitContext` | client/src/pages/CampaignDetails.jsx:36-38 | a refresh is issued exactly when the (contract, address) pair differs from the one the effect last ran with and a contract is present; the list is untouched |
| `Donors.ApplyDonations` | client/src/pages/CampaignDetails.jsx:30-34 | a gateway result replaces the list as it is; a failed call leaves it |
| `Donors.LastDeliveryWins` | client/src/pages/CampaignDetails.jsx:30-33 | after any run, the list is the last one delivered, whatever came before, and the backer count (line 143) is its length |
| `Donors.NoDeliveryKeepsList` | client/src/pages/CampaignDetails.jsx:30-38 | a run without a delivery leaves the list |
| `Donors.SameSnapshotRefreshIsInvisible` | client/src/pages/CampaignDetails.jsx:30-38 | an identity switch with a contract present refreshes, and a refresh returning the same list leaves the list unchanged |
| `CampaignDetailsPage.CampaignDetails.constructor` | client/src/pages/CampaignDetails.jsx:15-26 | the router's campaign is held, and every hook is at its initial value |
| `CampaignDetailsPage.CampaignDetails.CommitCommentEffect` | client/src/pages/CampaignDetails.jsx:40-57 | follows `CommentFeed.Commit` and returns the title and cursor fetched, if any |
| `CampaignDetailsPage.CampaignDetails.CompleteCommentFetch` | client/src/pages/CampaignDetails.jsx:41-54 | follows `CommentFeed.ApplyFetch`; the donor fields are outside its frame |
| `CampaignDetailsPage.CampaignDetails.HandleLoadMoreComment` | client/src/pages/CampaignDetails.jsx:59-63 | follows `CommentFeed.LoadMore` and reports the TypeError on an empty list |
| `CampaignDetailsPage.CampaignDetails.ChangeInput` | client/src/pages/CampaignDetails.jsx:191 | the input becomes the typed text, nothing else changes |
| `CampaignDetailsPage.CampaignDetails.HandleSubmit` | client/src/pages/CampaignDetails.jsx:65-97 | changes no state. It returns `ValidateSubmit`'s verdict, and a request is sent iff there is an address and the input is not whitespace only |
| `CampaignDetailsPage.CampaignDetails.CompleteSubmit` | client/src/pages/CampaignDetails.jsx:97-108 | follows `CommentFeed.ApplyReply` |
| `CampaignDetailsPage.CampaignDetails.CommitDonorEffect` | client/src/pages/CampaignDetails.jsx:36-38 | follows `Donors.CommitContext`; a refresh is `getDonations(pId)` |
| `CampaignDetailsPage.CampaignDetails.ChangeRoute` | client/src/pages/CampaignDetails.jsx:15 | the router hands the mounted page another campaign: title and index are replaced, the comment feed changes as `CommentFeed.Step` on a route change says (title only), and the donor state is unchanged |
| `CampaignDetailsPage.CampaignDetails.CompleteDonorFetch` | client/src/pages/CampaignDetails.jsx:30-34 | follows `Donors.ApplyDonations` |

## Left out

- Rendering, CSS, toasts, the success dialog and `moment(...).fromNow()`: presentation only. The toasts are the `NotLoggedIn` and `EmptyComment` verdicts.
- `handleDonate`, `donate` and `navigate`, with the `isLoading` and `amount` hooks: an opaque on-chain call followed by routing.
- `handleKeyDown`: it only forwards Enter to the submit handler.
- `daysLeft` and `calculateBarPercentage`, and the context functions `getCommentCompaign`, `sendCommentCompaign` and `getDonations`: their sources are not part of this model. Their results are inputs to the completion events.
- `client/src/main.jsx` and `web3/hardhat.config.js`: bootstrap and build configuration, with no state logic.
- Async interleaving and React's scheduling: each completion, click and commit is one discrete event, in any order. Responses that arrive late or out of order are applied like any other completion, as in the code. The order of events is not constrained to what a browser can produce.
- Type confusion in service results is not modelled. A page is a list of comments and `response.data` is a comment. A status is a number or a string, not `undefined` or an object. Integer statuses only: the loose comparison of a non-integer number is left out.
- `StringToInteger`: covers integer literals only. Fractions, exponents, hexadecimal, binary and octal literals and `Infinity` are treated as NaN; the only string the page compares with is the integer literal `"201"`, so `LooseEquals201Agrees` is unaffected.
- The rest of the router's `state` (`image`, `target`, `deadline`, `owner`, `description`, `amountCollected`): read only for display.
- Rejections of `getDonations` and of the post call are not modelled as logged errors. They are unhandled rejections that change no state, and the model states only that.
