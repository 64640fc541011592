# Freelance Hub client rules in Dafny

A model of the rules inside the page components of the Freelance Hub web client,
a React front end over a REST API for a services marketplace: sellers publish
gigs, buyers order them, and both sides talk in conversations.

The client holds little logic of its own, and what it has is modelled here:

- **Gig forms** (`AddGig`, `EditGig`, shared `GigForm`). These cover the field
  rules of the create and edit forms, and how the two rule sets differ. They
  cover the feature-list editor (append, remove by position, replace by
  position), the cover and additional-image slots, the cap of four additional
  images on the create page, and the defaults applied when a gig is loaded for
  editing. The submit gate refuses to send without a cover. The request body
  drops blank features.
- **Browse filters** (`Gigs`). The URL parameters are a key/value map. A filter
  change sets a key, or deletes it when the value is empty. The query
  builder sends only the non-empty filters, in a fixed order. A delete asks
  for confirmation first, and a successful delete removes the gig from the list.
- **Orders** (`Orders`). This covers the buying and selling tabs as filters
  over the orders, the status and payment labels, the "Mark as Complete"
  guard, the selling tab shown only to sellers, and the shortened order id.
- **Conversation list** (`Messages`). It collects the other parties' ids
  without duplicates and fetches their details. It picks the other party of a
  conversation, gives the unread flag and the bucket a date is shown in.
- **Conversation page** (`MessagePage`). It resolves which conversation to show:
  the route id; otherwise the existing conversation for a gig; otherwise a new
  conversation with the gig's owner. It then loads the conversation and the
  other party, and shows a fallback screen when something is missing.
- **Chat panel** (`Chat`). This covers the message load and the send rule: trim,
  refuse blank input, append the server's copy, clear the input. It also
  covers which side a message is drawn on and when the send button is
  disabled.
- **Profile** (`Profile`). This covers the account form's rules, including the
  email pattern, written as character classes and proved equal to a computed
  check. The browser's own check of the `type="email"` input runs first, since
  the form does not turn it off; the two checks together are proved to accept
  exactly the addresses with well-formed domain labels. It covers the values
  the form is reset to, the gig load made for sellers only, and the integer
  seller statistics.

Supporting modules: `Wrappers` holds `Option` and `Outcome`. A request's
answer is `Ok(payload)` or `Fail`. `Records` holds the record shapes of
`src/types/index.ts`. `Strings` holds JavaScript's `trim` over the ECMAScript
white-space and line-terminator characters. `Seqs` holds an order-keeping filter
and removal by position.

Each stateful component is a class whose fields are its React state and whose
methods are its handlers. The server's answers are method parameters. A
request that the code makes is visible in the method's results (the body sent,
a `requested` flag, or a log of requests in order). Pure rules are functions.
The lemmas beside them state what the rules mean.

## Model

| member | source | states |
|---|---|---|
| GigForm.NonBlankFeatures | src/pages/AddGig.tsx:92 | the features sent are exactly the entries that are not blank after trimming, each as often as in the list, kept in their original order |
| GigForm.NonBlankDropsBlank | src/pages/AddGig.tsx:92 | an entry made only of white space never reaches the request, wherever it stands in the list |
| GigForm.NonBlankKeepsFilled | src/pages/AddGig.tsx:92 | when every entry has text, the list is sent unchanged |
| GigForm.Payload | src/pages/AddGig.tsx:88-93 | the body carries the form values, the cover, the additional images and the non-blank features |
| GigForm.FeaturesOnLoad | src/pages/EditGig.tsx:62-64 | a loaded gig's features are used when present and non-empty, otherwise `[""]`; the editor never starts empty |
| GigForm.ImagesOnLoad | src/pages/EditGig.tsx:59 | the additional images of a loaded gig default to the empty list |
| GigForm.LoadedValues | src/pages/EditGig.tsx:48-55 | the edit form starts from the loaded gig's eight fields |
| Strings.BlankIffAllSpace | src/pages/AddGig.tsx:92 | a text trims to empty exactly when every character of it is white space |
| Seqs.FilterCounts | src/pages/AddGig.tsx:92 | `Filter` keeps every copy of an element that passes and no copy of one that fails |
| Seqs.FilterSnoc | src/pages/Gigs.tsx:84 | filtering a list with one more element at the end keeps it at the end exactly when it passes, which with the empty case fixes the result |
| Strings.TrimIdempotent | src/components/Chat.tsx:59 | trimming an already trimmed text changes nothing |
| AddGig.AddGigAcceptsIff | src/pages/AddGig.tsx:132-319 | `AddGigRule`, the message each registered rule gives, passes on every field exactly when: the title has at least 10 characters; the category is set; the short title has 1 to 60 characters; the price is at least 5; the short description has 1 to 200 characters; the description has at least 100 characters; the delivery time is at least 1; the revisions are at least 0 |
| AddGig.AddGigForm.constructor | src/pages/AddGig.tsx:11-14 | the editor starts with one empty feature, no images and no loading |
| AddGig.AddGigForm.HandleImageUpload | src/pages/AddGig.tsx:37-56 | an uploaded URL fills the cover or is appended to the additional images; a failed upload changes nothing; the cover slot is offered only while no cover is set (AddGig.tsx:340), and with the other slot offered only below four, the count stays at most four |
| AddGig.AddGigForm.RemoveImage | src/pages/AddGig.tsx:58-64 | a removal clears the cover, or drops exactly one additional image by position (an out-of-range position drops nothing) |
| AddGig.AddGigForm.AddFeature | src/pages/AddGig.tsx:66-68 | exactly one empty entry is appended; earlier entries are unchanged |
| AddGig.AddGigForm.RemoveFeature | src/pages/AddGig.tsx:70-72 | exactly the entry at the position is removed, the rest keep their order, and an out-of-range position changes nothing; offered only above one entry, so the list never empties |
| AddGig.AddGigForm.UpdateFeature | src/pages/AddGig.tsx:74-78 | only the entry at the position is replaced; the length is unchanged |
| AddGig.AddGigForm.OnSubmit | src/pages/AddGig.tsx:80-103 | without a cover nothing is sent and loading is not touched; otherwise the body is sent while loading, the page moves to the profile only on success, and loading ends either way |
| AddGig.AddGigForm.HandleSubmit | src/pages/AddGig.tsx:118 | a body is sent exactly when every field rule passes and a cover is set |
| EditGig.EditGigAcceptsIff | src/pages/EditGig.tsx:177-336 | `EditGigRule`, the message each registered rule gives, passes on every field exactly when the four text fields and the category are filled, the price is at least 1, the delivery time at least 1 and the revisions at least 0 |
| EditGig.CreateRulesImplyEditRules | src/pages/EditGig.tsx:177-336 | whatever the create form accepts, the edit form accepts |
| EditGig.EditRulesAreWeaker | src/pages/EditGig.tsx:237-240 | some values pass the edit rules but not the create rules |
| EditGig.EditGigForm.constructor | src/pages/EditGig.tsx:12-16 | before the load the gig spinner shows and the editor holds one empty feature |
| EditGig.EditGigForm.FetchGig | src/pages/EditGig.tsx:41-76 | with a route id the gig is fetched; on success its fields, cover, images and features (with their defaults) are loaded; the gig spinner stops on success and on failure; without an id nothing is fetched |
| EditGig.EditGigForm.HandleImageUpload | src/pages/EditGig.tsx:78-97 | an upload fills the cover or appends an additional image, with no cap; the cover slot is offered only while no cover is set (EditGig.tsx:359) |
| EditGig.EditGigForm.RemoveImage | src/pages/EditGig.tsx:99-105 | a removal clears the cover or drops exactly one additional image by position |
| EditGig.EditGigForm.AddFeature | src/pages/EditGig.tsx:107-109 | exactly one empty entry is appended |
| EditGig.EditGigForm.RemoveFeature | src/pages/EditGig.tsx:111-113 | exactly the entry at the position is removed; the list never empties |
| EditGig.EditGigForm.UpdateFeature | src/pages/EditGig.tsx:115-119 | only the entry at the position is replaced |
| EditGig.EditGigForm.OnSubmit | src/pages/EditGig.tsx:121-144 | without a cover nothing is sent; otherwise the body with the non-blank features is sent while loading |
| EditGig.EditGigForm.HandleSubmit | src/pages/EditGig.tsx:164 | a body is sent exactly when the edit rules pass and a cover is set |
| Gigs.ReadParam | src/pages/Gigs.tsx:14-18 | a missing parameter reads as the empty string |
| Gigs.WithFilter | src/pages/Gigs.tsx:91-99 | a non-empty value sets the key, an empty one deletes it, and every other key keeps its value |
| Gigs.ReadAfterWithFilter | src/pages/Gigs.tsx:91-99 | after a change, the changed key reads as the new value and every other key reads as before |
| Gigs.Candidates | src/pages/Gigs.tsx:49-54 | the five filters are considered in the order search, category, minPrice, maxPrice, sort |
| Gigs.QueryIsFilledFilters | src/pages/Gigs.tsx:49-54 | in `Query`, the filter over `Candidates`, a pair is in the query exactly when it is one of the five filters with a non-empty value, and the query keeps their fixed order |
| Gigs.EmptyParamsEmptyQuery | src/pages/Gigs.tsx:101-103 | after the filters are cleared the query is empty |
| Gigs.WithoutGig | src/pages/Gigs.tsx:84 | every gig with the deleted id is removed and every other gig stays, as often as before and in its order |
| Gigs.GigsPage.BuildQuery | src/pages/Gigs.tsx:49-54 | the loop of appends yields exactly the query of the current parameters |
| Gigs.GigsPage.FetchGigs | src/pages/Gigs.tsx:46-63 | the answer replaces the list, a failure keeps it, and loading ends either way |
| Gigs.GigsPage.HandleSearch | src/pages/Gigs.tsx:65-77 | a search sets or deletes only `search` |
| Gigs.GigsPage.HandleFilterChange | src/pages/Gigs.tsx:91-99 | a filter change updates only its own key |
| Gigs.GigsPage.constructor | src/pages/Gigs.tsx:8-9 | the page starts from the URL's parameters, with no gigs and loading on |
| Gigs.GigsPage.ClearFilters | src/pages/Gigs.tsx:101-103 | no parameter is left |
| Gigs.GigsPage.HandleDelete | src/pages/Gigs.tsx:80-88 | a declined confirmation makes no request; a failed delete keeps the list; a successful one removes the gig |
| Orders.BuyingTabIsOwnPurchases | src/pages/Orders.tsx:57-60 | `FilteredOrders`, the filter with `OnTab`, lists on the buying tab exactly the orders the current user bought, each as often as in the list, in their original order |
| Orders.SellingTabIsOwnSales | src/pages/Orders.tsx:61-62 | `FilteredOrders` lists on the selling tab exactly the orders the current user sold, each as often as in the list, in their original order |
| Orders.StatusText | src/pages/Orders.tsx:47-49 | "Completed" exactly for completed orders, "In Progress" otherwise |
| Orders.PaymentText | src/pages/Orders.tsx:188-195 | "Paid" exactly when the payment intent is non-empty and not "temporary", "Pending" otherwise |
| Orders.TabsOffered | src/pages/Orders.tsx:97 | the selling tab is drawn exactly for sellers |
| Orders.ConfirmOnlyOwnOpenSales | src/pages/Orders.tsx:165 | an order with a "Mark as Complete" button is an open sale of the current user, who is a seller |
| Orders.OrderIdSuffix | src/pages/Orders.tsx:145 | the shown id is the last eight characters, or the whole id when shorter |
| Orders.OrdersPage.constructor | src/pages/Orders.tsx:10-12 | the page starts loading, on the buying tab, with no orders |
| Orders.OrdersPage.FetchOrders | src/pages/Orders.tsx:18-28 | the answer replaces the list and loading ends either way |
| Orders.OrdersPage.SetActiveTab | src/pages/Orders.tsx:97-99 | a tab button changes only the active tab |
| Orders.OrdersPage.HandleConfirmOrder | src/pages/Orders.tsx:30-38 | after a successful confirmation the orders are fetched again; a failure changes nothing |
| Messages.CounterpartIsOtherParty | src/pages/Messages.tsx:49-55 | `CounterpartId`, the id `getOtherUser` looks up: for a participant of a conversation between two users, the other party is the other participant |
| Messages.CollectUserIds | src/pages/Messages.tsx:24-28 | the collected ids have no duplicates and are exactly the sellers and buyers other than the current user |
| Messages.CollectedIdsCoverCounterparts | src/pages/Messages.tsx:24-28 | the current user is never collected, and every seller or buyer id that differs from the current user is |
| Messages.FetchUserDetails | src/pages/Messages.tsx:30-40 | the details map holds exactly the collected ids whose request succeeded, each with its answer |
| Messages.OtherUser | src/pages/Messages.tsx:49-55 | a conversation's other user is the details entry of its counterpart id, when there is one |
| Messages.UnknownUserExactly | src/pages/Messages.tsx:148 | by `DisplayName`, a conversation whose counterpart was not fetched, or was fetched with an empty name, shows "Unknown User"; a fetched, named one shows the name |
| Messages.UnreadUsesOwnMark | src/pages/Messages.tsx:115-117 | by `IsUnread`, a seller sees unread exactly when the seller has not read it, anyone else when the buyer has not; the other side's mark never matters |
| Messages.BucketOfAge | src/pages/Messages.tsx:57-72 | under 24 hours a date shows as a time of day, under 168 hours as a weekday, at 168 hours or more in full; the three cases are disjoint and cover every age |
| Messages.BucketMonotone | src/pages/Messages.tsx:57-72 | by `Bucket`, `formatDate`'s choice against the clock, an older date never shows in a finer bucket than a newer one |
| Messages.MessagesPage.constructor | src/pages/Messages.tsx:10-12 | the page starts loading with no conversations and no users |
| Messages.MessagesPage.FetchConversations | src/pages/Messages.tsx:18-47 | on success the conversations are stored, the other parties are requested once each and the details map holds the answers; on failure nothing changes; loading ends either way |
| MessagePage.AsResolution | src/pages/Message.tsx:52 | an empty id counts as no conversation id |
| MessagePage.RouteIdMakesNoRequest | src/pages/Message.tsx:20-25 | in `ResolutionOf`, the reference resolution with its requests: with a route id no lookup and no creation request is made, and the route id is used |
| MessagePage.NoGigNoId | src/pages/Message.tsx:25-50 | without a route id, and without a gig id or a current user, no id is obtained and no request is made |
| MessagePage.LookupSuppliesId | src/pages/Message.tsx:31-36 | without a route id, a successful lookup by gig supplies the id (none when it is empty), and it is the only request |
| MessagePage.CreateOnlyAfterFailedLookup | src/pages/Message.tsx:31-47 | a conversation is created only after the lookup by gig failed and the gig was fetched, and always with the gig owner's id as `to` |
| MessagePage.ResolveConversationId | src/pages/Message.tsx:20-50 | the step-by-step resolution yields the id and the request sequence of the reference resolution |
| MessagePage.PresenceText | src/pages/Message.tsx:176-178 | "Online" exactly when both read flags are set, "Last seen recently" exactly otherwise |
| MessagePage.FallbackText | src/pages/Message.tsx:119-121 | the fallback screen invites a chat exactly when a gig id is given, and reports a missing conversation otherwise |
| MessagePage.MessageView.constructor | src/pages/Message.tsx:13-15 | the page starts loading, with no conversation and no other user |
| MessagePage.MessageView.FetchConversation | src/pages/Message.tsx:17-99 | without a current user nothing is requested; otherwise the resolved id leads to the conversation and messages requests, then the other party's (buyer when the current user sells, seller otherwise); a complete load leaves the fallback screen (`ShowsFallback`, Message.tsx:109); loading ends |
| MessagePage.MessageView.StartChat | src/pages/Message.tsx:123-136 | offered only with a gig id and a current user; it fetches the gig and creates a conversation with its owner, with no lookup, and targets the new conversation |
| Chat.SideOf | src/components/Chat.tsx:103-105 | a message is drawn as the current user's own exactly when its author id equals the current user's id |
| Chat.SendDisabledIff | src/components/Chat.tsx:139 | `SendDisabled`, the button's `disabled` expression: the send button is disabled exactly when a send is loading or the input is only white space |
| Chat.SendErrorText | src/components/Chat.tsx:67 | a refused send shows the server's non-empty message, else "Failed to send message" |
| Chat.ChatBox.constructor | src/components/Chat.tsx:21-23 | the panel starts with no messages, an empty input and no loading |
| Chat.ChatBox.SetNewMessage | src/components/Chat.tsx:132 | typing changes only the input |
| Chat.ChatBox.FetchMessages | src/components/Chat.tsx:35-49 | with a conversation id the messages are fetched and replace the list; a failure keeps the list and raises the load-failure toast |
| Chat.ChatBox.HandleSendMessage | src/components/Chat.tsx:51-71 | a blank input or a missing user sends nothing and changes nothing; otherwise the trimmed text, never blank, is sent while loading; success appends the server's message and clears the input; failure keeps both; loading ends either way |
| Chat.ChatBox.PostMessage | src/components/Chat.tsx:55-70 | loading is set for the request and cleared after it; success appends the stored message at the end and clears the input; a refusal keeps both and shows the error text |
| Profile.IsValidEmailIff | src/pages/Profile.tsx:179-185 | `IsValidEmail`, the computed email check, accepts exactly the texts the pattern matches: a local part of letters, digits and `._%+-`, an `@`, a domain of letters, digits, `.` and `-`, a dot, and two or more letters, with letter case ignored |
| Profile.OneLetterTopLevelDomainRejected | src/pages/Profile.tsx:182 | "a@b.c" does not match the pattern and "a@b.co" does |
| Profile.ProfileAcceptsIff | src/pages/Profile.tsx:156-204 | `ProfileRule`, the message each registered rule gives, passes on every field exactly when the username has at least three characters, the email matches the pattern and the country is set |
| Profile.SplitOnJoins | src/pages/Profile.tsx:178 | joining the parts of a split with the separator gives the text back, and no part holds the separator |
| Profile.SplitJoinRoundTrip | src/pages/Profile.tsx:178 | splitting a join of parts free of the separator gives the parts back |
| Profile.SubmittableEmailIff | src/pages/Profile.tsx:126-185 | the browser's check of the `type="email"` input (HTML's valid e-mail address: a local part, an `@`, dot-separated labels of 1 to 63 letters, digits and hyphens, neither starting nor ending with a hyphen) and the pattern together accept exactly a local part of the pattern's class, an `@`, two or more such labels, and a last label of two or more letters |
| Profile.BrowserStopsPatternMatches | src/pages/Profile.tsx:178-182 | "a@.b.com" and "a@b-.com" match the pattern but fail the browser's check |
| Profile.ProfileSubmitsIff | src/pages/Profile.tsx:126-204 | the values are sent exactly when the username has at least three characters, the country is set and the email passes both the browser's check and the pattern, as `SubmittableEmail` describes it |
| Profile.OptionalFieldsNeverFail | src/pages/Profile.tsx:221-233 | phone and description never stop the form |
| Profile.ResetValues | src/pages/Profile.tsx:33-40 | the form gets the user's username, email and country, and a missing phone or description becomes "" |
| Profile.ActiveGigs | src/pages/Profile.tsx:288 | "Active Gigs" is the number of the user's gigs |
| Profile.TotalSales | src/pages/Profile.tsx:293 | "Total Sales" is 0 without gigs; with `TotalSalesSingle` and `TotalSalesAppend` it is the sum of the gigs' sales counts |
| Profile.TotalSalesSingle | src/pages/Profile.tsx:293 | a single gig's total is its own sales count |
| Profile.TotalSalesAppend | src/pages/Profile.tsx:293 | the total over two lists is the sum of their totals |
| Profile.TotalSalesNonNegative | src/pages/Profile.tsx:293 | with no negative sales count the total is never negative |
| Profile.RatingShown | src/pages/Profile.tsx:301-308 | without gigs the rating is the text "0.0"; otherwise it is the star sum over the gig count |
| Profile.RoleText | src/pages/Profile.tsx:144 | "Seller" exactly for a signed-in seller, "Buyer" otherwise |
| Profile.ProfilePage.constructor | src/pages/Profile.tsx:20-23 | the page starts loading, not editing, not saving, with no gigs |
| Profile.ProfilePage.FetchUserGigs | src/pages/Profile.tsx:49-58 | the answer replaces the gig list, a failure keeps it, and loading ends either way |
| Profile.ProfilePage.OnCurrentUser | src/pages/Profile.tsx:32-47 | the form is reset from the signed-in user; gigs are requested exactly for a seller, and loading ends at once for anyone else; after a successful fetch "Active Gigs" (`ActiveGigs`, Profile.tsx:288) counts the fetched list |
| Profile.ProfilePage.ToggleEditing | src/pages/Profile.tsx:118 | the Edit/Cancel button flips only the editing flag |
| Profile.ProfilePage.HandleSubmit | src/pages/Profile.tsx:60-73 | the values are sent exactly when the browser's email check and the form's rules pass (`ProfileSubmits`); saving is set during the request and cleared after; editing ends only on success |
| Profile.ProfilePage.HandleDeleteGig | src/pages/Profile.tsx:79-91 | a declined confirmation does nothing; a successful delete fetches the gigs again; a failed one changes nothing |

## Left out

- HTTP requests, uploads and the server: every answer is an abstract success with a payload or a failure, and the server's own behaviour is not part of this model.
- Toast messages, `console` logging, navigation (`navigate`, `window.location`), `window.history.back`, `window.location.reload` after a profile save, and `logout`. These are browser or library effects. Only Chat's toasts are kept, as results, because their texts follow a rule.
- `window.confirm`: the answer is a boolean parameter.
- React re-render and effect timing: each effect is a method called with the values it reads. `Promise.all` in the conversation page is treated as two requests in sequence.
- Overlapping requests: each handler runs to completion before the next, so updates computed from stale state are not modelled. In the source an upload appends to the image list as it was when the upload started (src/pages/AddGig.tsx:51, src/pages/EditGig.tsx:91). So with two uploads in flight one image is lost, and an image removed during an upload comes back; the model keeps both images and the removal. Overlapping `fetchGigs` answers likewise arrive in any order in the source, and here the last call wins.
- Number inputs are `Option<int>`, with `None` for an empty input. Fractional and non-numeric input text is not modelled.
- The browser's handling of the email input beyond its validity rule: it removes newlines and surrounding white space from the value, and some browsers convert internationalized domain names. The values are taken as the form library reads them.
- String lengths count Unicode scalar values. JavaScript's `length` counts UTF-16 code units, so the two differ for characters outside the Basic Multilingual Plane.
- Locale formatting of dates and times, and the `toFixed(1)` average rating. Only the choice of date bucket is modelled, using integer milliseconds. The rating is kept as the star sum and the count.
- Messages.BucketOfAge: the hour count is a floating-point quotient in the source. It is compared here as exact milliseconds, which ignores rounding in the division.
- Profile.RatingShown: for a non-empty list it states the fraction shown, not its one-decimal text.
- Profile.TotalSales: JavaScript numbers are doubles, and the sum is modelled on unbounded integers with no rounding.
- The Gig page, Home page, Navbar, routing, the auth guard and the payment modal, as well as JSX rendering and styling: these are not part of this model.
- `Gigs.ReadParam` uses the first value of a repeated URL parameter in the source. The model keeps one value per key.
- The error-text fallbacks of the gig forms' and the profile's failure toasts are not modelled. They are toasts like the rest.
