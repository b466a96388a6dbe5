# Tap'dIn event extraction and feed card, in Dafny

This project models two parts of the Tap'dIn social-plans application:

- **The `POST /api/process` handler** (`app/api/process/route.ts`). It reads a URL and/or an image
  from a multipart form and turns it into text. A URL gives the fetched page's labelled text; an
  image gives the text an OCR service detects in it. The handler sends that text to a chat model
  with a fixed instruction. It sniffs the reply and parses it as JSON, then answers with an event
  record in which every falsy field (missing, empty, null, false or 0) takes its default.
- **The feed card** (`components/shared/feed-card.tsx`) and the **participant summary** it embeds
  (`components/shared/participants-display.tsx`). The model covers what a card shows for a feed
  item, which callback each button hands back, and the open/closed state of the card's menu
  (`showMenu`).

Modules:

- `Wrappers` (`wrappers.dfy`): `Option`, standing for `undefined`/`null`.
- `Types` (`types.dfy`): the record shapes of `lib/types.ts`.
- `Js` (`js.dfy`): the JavaScript semantics the code relies on:
  - JSON values and their truthiness, as used by the logical or;
  - property reads on parsed values;
  - `trim` with the ECMAScript white-space set;
  - `startsWith`, `substring(0, n)`, `charAt(0)` and `?.[0]`.
- `ProcessRoute` (`process_route.dfy`): the handler.
  - Everything the handler calls is an oracle field of `World`: `fetch` plus cheerio's queries, the
    OCR service, the chat model, `JSON.parse`, and `new Date(...).toISOString()`.
  - `Respond` and `CallsMade` specify the handler's answer and the sequence of outbound calls.
  - `Post` (with `ExtractText`) is the handler as written: it reassigns `extractedText` and returns
    early. It is proved to agree with `Respond` and `CallsMade`.
- `ParticipantsDisplay` (`participants_display.dfy`): the participant summary, as a function from
  props to a view.
- `FeedCard` (`feed_card.dfy`): the card as a function from an item and two flags to a view.
  - `CardMenu` is a class whose `showMenu` field the three handlers update.
  - `MenuStep`/`MenuAfter` give the same state as a fold over events.
  - `MenuOpenIffOddToggles` characterises that state.

The model follows the code, including these behaviours a reader may not expect:

- The URL fetch has no timeout.
- When both a URL and an image are given, the URL is fetched first (a failed fetch is a 500). The
  image's OCR text then replaces the page text, so an image without text hides a page that had
  text (`BlankImageHidesUrlText`).
- A reply that fails the `{`/`[` sniff and a reply that `JSON.parse` rejects give the same response,
  500 "Error parsing response from OpenAI" (`ReplyNotParsedIff`).
- An OCR result whose annotation list is present but empty is not read as "no text". Reading
  `detections[0].description` throws, so the answer is the generic 500 (`EmptyAnnotationsFail`).
- The handler answers 200 with the formatted record itself. It stores nothing.

## Model

| member | source | states |
|---|---|---|
| Js.Truthy | app/api/process/route.ts:127-131 | a value is falsy exactly when it is undefined, null, false, 0 or the empty string; every array and object is truthy |
| Js.Or | app/api/process/route.ts:127-131 | JavaScript's logical or with a fallback: a truthy value passes through unchanged, a falsy or missing one gives the fallback, and a truthy fallback makes the result truthy |
| Js.Property | app/api/process/route.ts:127-131 | reading `eventData.key`, for one of the five keys the handler reads, on a non-null parsed value is defined exactly for an object's own key and then yields that field |
| Js.TrimStart | app/api/process/route.ts:59 | the result is a suffix of the input, everything cut off is white space, and it is empty or starts with non-white space |
| Js.TrimEnd | app/api/process/route.ts:59 | the result is a prefix of the input, everything cut off is white space, and it is empty or ends with non-white space |
| Js.Trim | app/api/process/route.ts:59 | `trim()` never lengthens a string and leaves no white space at either end |
| Js.TrimStartPadded | app/api/process/route.ts:54-59 | leading white space in front of a text that starts with non-white space is removed exactly |
| Js.TrimEndPadded | app/api/process/route.ts:54-59 | trailing white space after a text that ends with non-white space is removed exactly |
| Js.TrimPadded | app/api/process/route.ts:54-59 | trimming white-space padding on both sides returns exactly the text it surrounds |
| Js.StartsWith | app/api/process/route.ts:115 | `startsWith` holds exactly when the prefix is no longer than the string and agrees with it character by character |
| Js.Prefix | app/api/process/route.ts:58 | `substring(0, n)` is a prefix of length `min(n, length)` and the whole string when it is short enough |
| Js.FirstChar | components/shared/participants-display.tsx:60 | `charAt(0)` is the first character, or "" for an empty name |
| Js.FirstIndex | components/shared/feed-card.tsx:125-129 | `?.[0]` is the first character, or undefined for an empty name |
| ProcessRoute.Given | app/api/process/route.ts:76 | `if (url)`: a URL counts exactly when the form field, read as a JavaScript string, is truthy (present and non-empty) |
| ProcessRoute.PrimaryText | app/api/process/route.ts:51 | the page's main text if non-empty, else its article text if non-empty, else its body text; empty only when all three are |
| ProcessRoute.Content | app/api/process/route.ts:58 | the content line is a prefix of the primary text: the whole of it when it has at most 1000 characters, and exactly its first 1000 characters otherwise |
| ProcessRoute.Template | app/api/process/route.ts:54-59 | the filled-in template is the four fields plus 95 characters of labels and layout, and begins and ends with white space |
| ProcessRoute.PageText | app/api/process/route.ts:48-59 | the page text is 12 characters shorter than the filled-in template (its leading and trailing newline and indentation), non-empty, and neither starts nor ends with white space |
| ProcessRoute.Labelled | app/api/process/route.ts:55-58 | the four labelled lines are 12 characters shorter than the filled-in template and start with "T" and end with "h", so neither end is white space |
| ProcessRoute.TemplateIsPaddedLabelled | app/api/process/route.ts:54-59 | the template is the labelled lines between a leading newline with six spaces and a trailing newline with four |
| ProcessRoute.PageTextIsTrimmedTemplate | app/api/process/route.ts:54-59 | the page text is the trimmed, filled-in template: its four labelled lines, meta description defaulting to "" |
| ProcessRoute.TemplateTrimmed | app/api/process/route.ts:54-59 | trimming the template removes exactly its leading and trailing newline and indentation, for any field values |
| ProcessRoute.UrlText | app/api/process/route.ts:37-79 | no URL (absent or empty) gives ""; the URL step throws exactly when a URL was given and fetching it failed; a fetched page gives its page text |
| ProcessRoute.OcrText | app/api/process/route.ts:84-86 | absent annotations give ""; an empty annotation list throws; a non-empty list gives its first annotation's description, or "" when that is missing |
| ProcessRoute.Extract | app/api/process/route.ts:74-87 | without an image the extracted text is the URL's; with one (and a successful fetch) it is the OCR text, whatever the URL gave; extraction throws exactly when the fetch fails, the OCR call fails, or the annotation list is empty |
| ProcessRoute.ExtractText | app/api/process/route.ts:74-87 | extraction as written (reassigning `extractedText`, returning at the first throw) yields `Extract`'s outcome and the calls of `ExtractionCalls` |
| ProcessRoute.ExtractionCalls | app/api/process/route.ts:76-84 | one fetch exactly when a URL is given and one OCR call exactly when an image is given and the fetch did not fail, the fetch first, and never a chat call |
| ProcessRoute.CallsMade | app/api/process/route.ts:70-109 | none for an unreadable form; otherwise exactly the extraction calls in order, followed by one chat call carrying the extracted text exactly when extraction succeeded with non-empty text, and nothing else (no retry of any call, at most three calls in all) |
| ProcessRoute.ChatRequestFor | app/api/process/route.ts:95-109 | the chat request carries the extracted text unchanged as the user message, with model gpt-3.5-turbo, the fixed instruction and a 500-token cap |
| ProcessRoute.LooksLikeJson | app/api/process/route.ts:115 | the sniff passes exactly when the trimmed reply is non-empty and starts with `{` or `[` |
| ProcessRoute.ReplyText | app/api/process/route.ts:111 | the reply text is never empty; it is "{}" exactly when there is no first choice, message or non-empty content, or the content is "{}"; any other reply text is the first choice's content unchanged |
| ProcessRoute.ParseDateTime | app/api/process/route.ts:26-35 | a falsy datetime gives null; a truthy one gives the date oracle's ISO string or null, and never throws |
| ProcessRoute.FormatEvent | app/api/process/route.ts:126-132 | title, location and type are always truthy; each truthy parsed field is kept and each falsy one takes its default; the datetime is `parseDateTimeString` of the parsed field |
| ProcessRoute.Normalize | app/api/process/route.ts:111-134 | after the chat call the status is 200 or 500; "Error parsing response from OpenAI" exactly when the sniff or the parse fails; a parsed null gives the generic 500; 200 exactly when the reply parses to something other than null, with the formatted parsed reply as its body |
| ProcessRoute.Respond | app/api/process/route.ts:66-139 | the status is 200, 400 or 500; 200 exactly with an event body; 400 is only "No text extracted"; every 500 is one of the two error messages |
| ProcessRoute.Post | app/api/process/route.ts:66-139 | the handler as written, with its early returns, gives `Respond`'s response and makes exactly the calls of `CallsMade` |
| ProcessRoute.NothingSubmitted | app/api/process/route.ts:74-91 | a form with neither URL nor image gets the 400 and makes no outbound call |
| ProcessRoute.NoTextIff | app/api/process/route.ts:89-109 | the 400 is returned exactly when extraction succeeded with empty text, and the model is called exactly when it succeeded with non-empty text |
| ProcessRoute.ImageOverridesUrl | app/api/process/route.ts:76-87 | when the fetch did not fail, the image's first annotation replaces whatever the URL gave |
| ProcessRoute.BlankImageHidesUrlText | app/api/process/route.ts:74-91 | a page with text plus an image whose first annotation is blank gives the 400, after exactly a fetch and an OCR call |
| ProcessRoute.EmptyAnnotationsFail | app/api/process/route.ts:84-86 | an empty annotation list gives the generic 500 even when the URL gave text |
| ProcessRoute.FetchFailureFails | app/api/process/route.ts:60-63 | a failed fetch gives the generic 500 and the OCR is never called, even when an image was sent |
| ProcessRoute.OpeningBracketLooksLikeJson | app/api/process/route.ts:115 | a reply that starts with `{` or `[` after any leading white space passes the sniff |
| ProcessRoute.MissingReplyGivesDefaults | app/api/process/route.ts:111-132 | a missing or empty model reply becomes "{}" and yields the all-defaults record with a null datetime |
| ProcessRoute.EmptyObjectGivesDefaults | app/api/process/route.ts:113-132 | the "{}" fallback, parsed as an empty object, yields the all-defaults record |
| ProcessRoute.EmptyObjectLooksLikeJson | app/api/process/route.ts:111-115 | the `'{}'` fallback passes the sniff |
| ProcessRoute.ArrayOrObjectWithoutFields | app/api/process/route.ts:113-134 | a reply that passes the sniff and parses to a non-null value with none of the five fields truthy is answered 200 with the all-defaults record |
| ProcessRoute.NoFieldsGivesDefaults | app/api/process/route.ts:126-132 | a parsed value none of whose five fields is truthy yields exactly the all-defaults record |
| ProcessRoute.ArrayReplyGivesDefaults | app/api/process/route.ts:113-132 | a reply that parses to an array yields the all-defaults record |
| ProcessRoute.ReplyNotParsedIff | app/api/process/route.ts:113-124 | "Error parsing response from OpenAI" is returned exactly when the model replied and its reply failed the sniff or the parse |
| ProcessRoute.EventAnswerIff | app/api/process/route.ts:102-134 | the 200 answer is given exactly when text was extracted, the model replied, and the reply passes the sniff and parses to something other than null; its body is then the formatted parsed reply |
| ProcessRoute.RequestFailedIff | app/api/process/route.ts:136-139 | "Failed to process request" is returned exactly when reading the form, extraction or the chat call threw, or the fields of a parsed null were read |
| ProcessRoute.DateNeverAborts | app/api/process/route.ts:26-35 | changing how dates parse never changes the status or an error answer, and changes only the datetime field of an event answer |
| ProcessRoute.VolleyballExample | app/api/process/route.ts:111-134 | a well-formed reply with all five fields is answered 200 with those fields and the date converted to its ISO instant |
| ProcessRoute.VolleyballFields | app/api/process/route.ts:126-132 | formatting the example's parsed object keeps every field and converts the date |
| ParticipantsDisplay.SpotsNoun | components/shared/participants-display.tsx:36 | "spot" exactly for one remaining spot, otherwise "spots" |
| ParticipantsDisplay.PlaceholderCount | components/shared/participants-display.tsx:67 | at most three placeholders, none when no spot remains, one per remaining spot up to three |
| ParticipantsDisplay.AvatarOf | components/shared/participants-display.tsx:42-65 | an avatar is keyed by id and titled by name; it is a photo exactly when the avatar URL is truthy, otherwise the name's first character |
| ParticipantsDisplay.Summary | components/shared/participants-display.tsx:77-84 | shown exactly when names are shown and someone participates; starts with the first name; the others clause counts everyone else, "other" for one and "others" for more |
| ParticipantsDisplay.Render | components/shared/participants-display.tsx:20-88 | nothing for an open invite; otherwise the "{n} spot(s) left" label with its noun from `SpotsNoun`, one avatar per participant in order, the placeholders and the summary, with names shown by default |
| ParticipantsDisplay.TotalSpotsIgnored | components/shared/participants-display.tsx:20-21 | `totalSpots` does not affect what is rendered |
| ParticipantsDisplay.SpotsAndPlaceholdersAgree | components/shared/participants-display.tsx:36-67 | one remaining spot reads "1 spot" with one placeholder; none or fewer reads "spots" with no placeholder |
| ParticipantsDisplay.TileCount | components/shared/participants-display.tsx:42-74 | the avatar row holds one tile per participant plus the placeholders, one per remaining spot when at most three remain |
| ParticipantsDisplay.DefaultsShowNames | components/shared/participants-display.tsx:24-27 | with neither flag given, the summary is shown and starts with the first participant's name |
| FeedCard.ShownPoster | components/shared/feed-card.tsx:125-161 | a repost shows its event's original poster (possibly undefined); other items show their own poster |
| FeedCard.TierOf | components/shared/feed-card.tsx:143-157 | the badge is emerald exactly for "1st", sky exactly for "2nd", zinc otherwise (including undefined) |
| FeedCard.PosterLineOf | components/shared/feed-card.tsx:123-165 | the poster line shows the poster's name, age and connection; it has an initial exactly when the name is non-empty, and its tier follows the connection; all of it is undefined without a poster |
| FeedCard.ParticipantsProps | components/shared/feed-card.tsx:184-192 | remaining spots plus participants equals total spots; names are shown exactly when the item's own poster is "1st"; the open-invite flag is passed through |
| FeedCard.ActionsOf | components/shared/feed-card.tsx:196-243 | a repost button exactly for open invites; the interested count exactly when positive; "Interested" exactly when the viewer is interested, "Join" otherwise; the buttons hand back the item's id |
| FeedCard.Render | components/shared/feed-card.tsx:41-248 | a repost header exactly for reposts, a progress bar exactly for realtime items, an actions row exactly for non-reposts, plus the poster line, details and participant summary |
| FeedCard.HeaderXorActions | components/shared/feed-card.tsx:70-196 | every card shows exactly one of the repost header and the actions row, and never a progress bar together with a repost header |
| FeedCard.RepostShowsOriginalPoster | components/shared/feed-card.tsx:125-161 | a repost's poster line and badge colour come from the original poster, not the reposter |
| FeedCard.ShowNamesFollowsItemPoster | components/shared/feed-card.tsx:190 | a repost by a poster who is not a first-degree connection hides participant names, whoever the original poster is |
| FeedCard.OverbookedDrawsNoPlaceholder | components/shared/feed-card.tsx:187-189 | an event with no spots to spare draws no placeholder, and one with spare spots draws one to three |
| FeedCard.OpenInviteOffersRepost | components/shared/feed-card.tsx:191-219 | an open invite hides the participant summary and, on an original post, offers the repost button |
| FeedCard.MenuStep | components/shared/feed-card.tsx:30-59 | the menu button flips the menu; Delete and a press outside close it; a press inside leaves it unchanged |
| FeedCard.MenuAfter | components/shared/feed-card.tsx:27-59 | after a closing event the menu is closed, and presses inside the menu alone leave the initial state unchanged |
| FeedCard.MenuOpenIffOddToggles | components/shared/feed-card.tsx:27-59 | after any events the menu is open exactly when the button was clicked an odd number of times since the last close, or since mount when there was no close, counted from the initial state |
| FeedCard.CardMenu.constructor | components/shared/feed-card.tsx:27 | the menu starts closed |
| FeedCard.CardMenu.MenuButtonClick | components/shared/feed-card.tsx:46 | the menu button flips the menu's state |
| FeedCard.CardMenu.DeleteClick | components/shared/feed-card.tsx:56-59 | "Delete Plan" hands back a delete request for the item's id and closes the menu |
| FeedCard.CardMenu.MouseDownAnywhere | components/shared/feed-card.tsx:30-39 | a mouse press outside the menu's container closes the menu, and one inside leaves it unchanged |

## Left out

- The outside services are oracles in `World`, with no behaviour assumed: `fetch` and cheerio's HTML queries, the Google Vision client, the OpenAI client, `JSON.parse` and `Date`. A `JSON.parse` that answers `null` for a reply starting with `{` or `[` cannot happen in practice, but the model still covers it.
- The module-level check for missing environment variables and the construction of the two clients happen at load time, outside any request. They are not modelled.
- Console logging is not modelled.
- `file.arrayBuffer()` and the `Buffer` copy are folded into the OCR oracle. Their failure is a thrown OCR call.
- A form whose `image` field is a string rather than a file is not modelled. A `url` field holding a file is not modelled either.
- Strings are sequences of Unicode characters. JavaScript's `substring`, `charAt` and `[0]` count UTF-16 code units, so the model differs from them on characters outside the Basic Multilingual Plane.
- Numbers are rendered as values, not as text (for example "3 spots left"). CSS classes, icons, the `Image` component and the `TimeProgressBar` internals are not modelled.
- React's hooks, re-rendering, and registering and removing the mousedown listener are not modelled. The menu is a `CardMenu` object whose methods are the handlers.
- The card's callbacks (`onInterestToggle`, `onRepostToggle`, `onDelete`) are returned as values, not called.
- CardMenu.DeleteClick: does not require the menu to be open. The button exists only while the menu is open, but the handler itself does not depend on that.
- The repost header's fixed text ("1st" badge, "who wants to do this with me?") and the inert like, comment and share buttons have no behaviour and are not modelled.
- Persistence, listing and deletion of plans (`lib/mongodb.ts`, `models/Plan.ts`) are not used by the modelled handler and are not part of this model. The handler stores nothing.
- The theme menu and the other pages and components are not part of this model.
- Counts (`totalSpots`, `remainingSpots`, `currentInterested`, participant ids) are modelled as integers. They are JavaScript numbers, so a fractional value ("1.5 spots left", with `Array.from` drawing one placeholder) is not modelled.
