# WhatsApp dashboard core: a Dafny model

This project models the logic at the core of a Next.js WhatsApp Business dashboard. It covers five parts.

- **The flow builder** (`src/components/flows/flow-builder.tsx`). Users author WhatsApp Flows in it: screens that hold content items (headings, text inputs, choice lists, and so on).
  - The editor state is `screens` plus `selectedScreen`. It is the class `FlowEditor.FlowBuilder`, with one method per event handler.
  - Each method assigns to `screens` the value that a pure transition function of `FlowDocument` computes, mirroring the source's `map`, `filter` and spreads.
  - `FlowSerializer.ConstructJsonStructure` builds the flow JSON (version "6.0"). Each screen gets a form of components and a footer. Every footer but the last navigates to the next screen and forwards that screen's answers. The last footer completes the flow and carries every answer of every screen.
  - The two payloads are built in loops over a growing dictionary, as the source's `reduce`/`forEach` do.
- **String and time helpers** (`src/utils/helpers.ts`): phone-number validation against `PHONE_REGEX` and phone-number formatting, truncation to `MAX_MESSAGE_LENGTH`, the day/hour/minute difference between two instants, and word capitalisation.
- **The message store** (`src/lib/messageStore.ts`): a class with an append-only list of messages and a query by party.
- **The send-message route** (`src/app/api/send-message/route.ts`): the required-field guard, the MIME-type classification of an attached file, the payload that `sendMessage` posts, and the control flow of `POST` from the form to the response.
- **The message composer** (`src/components/WhatsAppInterface.tsx`): the request body built for each message type, and the send handler with its guard and its state update.

Files:
- `wrappers.dfy`: `Option`, `Result`, and JavaScript truthiness of an optional string.
- `json.dfy`: JSON values; objects are maps.
- `strings.dfy`: character classes, decimal rendering of naturals (template literals), and character filtering (regex `replace` with a negated class).
- `flow_document.dfy`, `flow_builder.dfy`, `flow_serializer.dfy`: the flow builder.
- `helpers.dfy`, `message_store.dfy`, `send_message.dfy`, `whatsapp_interface.dfy`: the other four parts.

Behaviour the model reproduces as the code has it:
- **Which screen an item edit touches.** The item mutators act on every screen whose id equals the id of the first screen that `find` returns for `selectedScreen`. When no screen has that id, they change nothing.
- **The X button.** The X button next to a screen calls `deleteContent(screen.id)`. It removes items of the selected screen whose id is that screen id, and never removes a screen (`FlowEditor.FlowBuilder.ScreenCloseClicked`).
- **Repeated item ids.** Item ids are `content_<count+1>`, so a deletion followed by an addition can repeat an id (`FlowDocument.AddAfterDeleteRepeatsId`).
- **Serialising zero screens** gives version "6.0" and an empty screen list. The code has no check for this case.
- **An out-of-range option update.** With an index equal to the length, `updateContentOption` appends the option. It is not a no-op.
- **Clearing after a send.** After a successful send, the composer clears the link and message-id inputs, but the message keeps its own `link` and `messageId`.

## Model

| member | source | states |
|---|---|---|
| FlowDocument.Find | src/components/flows/flow-builder.tsx:43 | `find` gives the first screen with the id (no earlier screen has it), and gives none exactly when no screen has that id |
| FlowDocument.Retitled | src/components/flows/flow-builder.tsx:45-47 | only screens with the given id change, and only in their title; every id, item list and other title is kept, so an unknown id changes nothing |
| FlowDocument.ContentAdded | src/components/flows/flow-builder.tsx:49-62 | with no selected screen nothing changes; otherwise each screen with the selected id gains exactly one item at the end (earlier items kept), with id `content_<n+1>` for the item count n of the first such screen, empty title and content, not required, and options `["Option 1"]` exactly for single-choice, multiple-choice and dropdown; other screens are unchanged |
| FlowDocument.FilterOutIndexRemovesAt | src/components/flows/flow-builder.tsx:114 | filtering out index i removes exactly `s[i]` and keeps the rest in order; an out-of-range i leaves the list unchanged |
| FlowDocument.ApplyEdit | src/components/flows/flow-builder.tsx:64-161 | id and type never change; a title, content or required edit sets that field alone; an in-range option update replaces only that option and keeps the length (absent options count as `[]`), and one at the end appends; adding an option appends `Option <k+1>` or, without options, sets `[]`; deleting an option removes exactly that index or, out of range, nothing |
| FlowDocument.ItemEdited | src/components/flows/flow-builder.tsx:64-161 | with no selected screen nothing changes; otherwise exactly the items with the given id on screens with the selected id are edited, in place, and every other item and screen is kept, with ids and titles |
| FlowDocument.WithoutId | src/components/flows/flow-builder.tsx:170 | the kept items are exactly the items whose id differs, never more than before, and nothing is removed when no item has the id |
| FlowDocument.WithoutIdConcat | src/components/flows/flow-builder.tsx:170 | filtering a concatenation filters each part, so the kept items stay in order |
| FlowDocument.ContentDeleted | src/components/flows/flow-builder.tsx:163-175 | with no selected screen nothing changes; otherwise screens with the selected id lose exactly the items with that id, and the screen count, ids, titles and other screens are kept |
| FlowDocument.AddAfterDeleteRepeatsId | src/components/flows/flow-builder.tsx:53 | after deleting `content_1` from a screen holding `content_1` and `content_2`, adding an item gives a second `content_2` |
| FlowDocument.NewScreenId | src/components/flows/flow-builder.tsx:317 | a new screen id is `screen_` followed by the first five letters of the random text (all of them when it has fewer), so 7 to 12 characters, all of them letters or underscores |
| FlowEditor.FlowBuilder.constructor | src/components/flows/flow-builder.tsx:38-42 | the builder starts with the one empty screen `First_Screen`, titled "First Screen" and selected |
| FlowEditor.FlowBuilder.SelectScreen | src/components/flows/flow-builder.tsx:457 | clicking a screen in the list selects its id and changes no screen |
| FlowEditor.FlowBuilder.UpdateScreenTitle | src/components/flows/flow-builder.tsx:45-47 | the screens become `Retitled` of the old screens; the selection is kept, and some screen still has the selected id |
| FlowEditor.FlowBuilder.AddContent | src/components/flows/flow-builder.tsx:49-62 | the screens become `ContentAdded` of the old screens and selection, so the selected screen has one more item |
| FlowEditor.FlowBuilder.UpdateContentOption | src/components/flows/flow-builder.tsx:64-83 | the screens become `ItemEdited` with the option update; the selection is kept |
| FlowEditor.FlowBuilder.AddContentOption | src/components/flows/flow-builder.tsx:85-103 | the screens become `ItemEdited` with an option appended; the selection is kept |
| FlowEditor.FlowBuilder.DeleteContentOption | src/components/flows/flow-builder.tsx:105-123 | the screens become `ItemEdited` with the option at the index removed; the selection is kept |
| FlowEditor.FlowBuilder.UpdateContent | src/components/flows/flow-builder.tsx:125-142 | the screens become `ItemEdited` with the new content; the selection is kept |
| FlowEditor.FlowBuilder.UpdateContentTitle | src/components/flows/flow-builder.tsx:144-161 | the screens become `ItemEdited` with the new title; the selection is kept |
| FlowEditor.FlowBuilder.UpdateContentRequired | src/components/flows/flow-builder.tsx:222-239 | the screens become `ItemEdited` with the new required flag; the selection is kept |
| FlowEditor.FlowBuilder.DeleteContent | src/components/flows/flow-builder.tsx:163-175 | the screens become `ContentDeleted` of the old screens and selection; the selection is kept |
| FlowEditor.FlowBuilder.ScreenCloseClicked | src/components/flows/flow-builder.tsx:458 | the X button deletes the selected screen's items whose id is the clicked screen's id; the screen count, every id and every title are kept |
| FlowEditor.FlowBuilder.AddScreen | src/components/flows/flow-builder.tsx:315-323 | one empty screen titled `Screen <n+1>` is appended after the unchanged old screens, and becomes selected |
| FlowSerializer.DataSource | src/components/flows/flow-builder.tsx:361 | one entry per option, in order; entry k is titled with the option, and its id is `k_` followed by the option with every character outside `[a-zA-Z_]` removed |
| FlowSerializer.DataSourceExample | src/components/flows/flow-builder.tsx:361 | the options "A" and "B" get the entries `0_A`/"A" and `1_B`/"B" |
| FlowSerializer.OptionIdExample | src/components/flows/flow-builder.tsx:361 | the option "a b!" at index 2 gets the id `2_ab` |
| FlowSerializer.OptionIdsDistinct | src/components/flows/flow-builder.tsx:361 | option ids within one data source are pairwise distinct, even when option texts repeat |
| FlowSerializer.MapItem | src/components/flows/flow-builder.tsx:338-384 | exactly the twelve known types give a component, never a footer, and each type gives its own: large-heading, small-heading, body and caption give `TextHeading`, `TextSubheading`, `TextBody` and `TextCaption` of the title; image gives `Image` with the content as source and the title as alt; short-answer, paragraph, date-picker and opt-in give `TextInput`, `TextArea`, `DatePicker` and `OptIn` with the title as label, the item id as name and the required flag; single-choice, multiple-choice and dropdown give `RadioButtonsGroup`, `CheckboxGroup` and `Dropdown` with, in addition, the data source of the options (absent without options) |
| FlowSerializer.Components | src/components/flows/flow-builder.tsx:338-385 | no more components than items and no footer among them; with only known types, one component per item in order, and with only unknown types, none |
| FlowSerializer.ComponentsConcat | src/components/flows/flow-builder.tsx:385 | mapping and filtering a concatenation does each part, so components keep the items' order |
| FlowSerializer.KeyInjective | src/components/flows/flow-builder.tsx:396 | `screen_<s>_<id>` determines both the screen index and the item id |
| FlowSerializer.NavigatePayload | src/components/flows/flow-builder.tsx:395-398 | the keys are exactly `screen_<i>_<id>` over the screen's items, each mapped to `${form.<id>}` |
| FlowSerializer.ForwardScreen | src/components/flows/flow-builder.tsx:402-407 | adding screen s's items to a complete payload of the earlier screens gives a complete payload of the first s+1 screens |
| FlowSerializer.CompletePayload | src/components/flows/flow-builder.tsx:401-409 | the keys are exactly `screen_<s>_<id>` over all items of all screens; the value is `${form.<id>}` on the completing screen and `${data.screen_<s>_<id>}` on earlier ones |
| FlowSerializer.BuildScreen | src/components/flows/flow-builder.tsx:328-416 | the output screen has the input's id and title and is terminal exactly when it is the last; its single-column layout has one `flow_path` form of the components followed by exactly one footer; the footer is "Continue", navigating to the next screen's id with the navigate payload, on every screen but the last, and "Done", completing with the complete payload, on the last |
| FlowSerializer.ConstructJsonStructure | src/components/flows/flow-builder.tsx:325-420 | version "6.0", one output screen per input screen in order, each as described by `BuildScreen`, and only the last is terminal |
| Helpers.MatchDigitsCount | src/utils/constants.ts:60 | the digit run `\d{min,max}$` matches exactly the strings of min to max decimal digits |
| Helpers.IsValidPhoneNumber | src/utils/helpers.ts:8-10 | valid exactly for "+", then a digit 1-9, then 1 to 14 digits, which means 3 to 16 characters |
| Helpers.FormatPhoneNumber | src/utils/helpers.ts:17-28 | "+" followed by exactly the decimal digits of the input, in order; the US branch gives the same string |
| Helpers.FormatPhoneNumberIdempotent | src/utils/helpers.ts:17-28 | formatting a formatted number gives it back |
| Helpers.FormatValidPhoneNumber | src/utils/helpers.ts:17-28 | a valid phone number is its own formatting |
| Helpers.TruncateMessage | src/utils/helpers.ts:35-40 | at most 4096 characters; a message within the limit is returned unchanged, and a longer one gives its first 4093 characters followed by "...", exactly 4096 |
| Helpers.TruncateMessageIdempotent | src/utils/helpers.ts:35-40 | truncating a truncated message changes nothing |
| Helpers.QuantityPlural | src/utils/helpers.ts:85-89 | a count is rendered as `<n> <unit>`, with a plural "s" exactly when n > 1 |
| Helpers.GetTimeDifference | src/utils/helpers.ts:78-91 | whole days when at least a day lies between the instants, else whole hours when at least an hour does, else whole minutes |
| Helpers.GetTimeDifferenceSymmetric | src/utils/helpers.ts:79 | swapping the two instants gives the same text |
| Helpers.UpperWordChar | src/utils/helpers.ts:99 | upper-casing a word character changes only a-z, each to its own capital (the code 32 lower), and keeps it a word character |
| Helpers.CapitalizeFromAt | src/utils/helpers.ts:99 | the replace upper-cases a character exactly when it is a word character not preceded by one |
| Helpers.CapitalizeWords | src/utils/helpers.ts:98-100 | the length is preserved; a character is upper-cased exactly when it is in `[A-Za-z0-9_]` and starts the string or follows a non-word character, and every other is kept |
| Helpers.CapitalizeWordsIdempotent | src/utils/helpers.ts:98-100 | capitalising twice is capitalising once |
| MessageStore.Conversation | src/lib/messageStore.ts:20 | the result holds exactly the messages sent by or to the phone number, and no more messages than are stored |
| MessageStore.ConversationAppend | src/lib/messageStore.ts:15-21 | a message added later comes after the earlier ones in every party's result, which keeps insertion order |
| MessageStore.MessageStore.constructor | src/lib/messageStore.ts:13 | the store starts empty |
| MessageStore.MessageStore.AddMessage | src/lib/messageStore.ts:15-17 | the message is appended after the unchanged earlier messages, so the count grows by one; the query of its sender and of its recipient now ends with it, and every other party's query is unchanged |
| MessageStore.MessageStore.GetMessages | src/lib/messageStore.ts:19-21 | exactly the stored messages sent by or to the phone number; as a function it reads the store and changes nothing |
| SendMessage.ClassifyMime | src/app/api/send-message/route.ts:99-116 | first match wins: "image/", "video/" and "audio/" prefixes give their media type, the four listed document MIME types give "document", and everything else is the error `Unsupported file type: <mime>` |
| SendMessage.MediaPrefixesExclusive | src/app/api/send-message/route.ts:100-105 | no MIME type has two of the three media prefixes |
| SendMessage.DocumentMimeTypesAreDocuments | src/app/api/send-message/route.ts:106-113 | each of the four document MIME types is classified as a document |
| SendMessage.BuildPayload | src/app/api/send-message/route.ts:41-59 | `messaging_product` "whatsapp", `to` the phone and `type` the media type or "text", plus one body field; with a media id and an image, video or document type, the body is `{id, caption: message, filename}` (no filename without a file); with any other type it is `{id}`; without media it is `text: {body: message}` |
| SendMessage.MediaTypesAreNotBaseKeys | src/app/api/send-message/route.ts:44-55 | a classified media type never overwrites a base field of the payload |
| SendMessage.ErrorResponse | src/app/api/send-message/route.ts:125-129 | a caught error is a 500 whose `_error` is its message, or "Something went wrong!" when that is empty |
| SendMessage.Post | src/app/api/send-message/route.ts:79-131 | a missing or empty phone or message is a 400 `Phone and message are required`, returned before any upload or send; a file is uploaded before it is classified; an upload or classification error is a 500 and nothing is sent; otherwise `sendMessage` gets the phone, the message, the media id, the media type and the file name, and success is a 200 `Message sent successfully!` |
| WhatsAppInterface.TypeNameInjective | src/components/WhatsAppInterface.tsx:13 | different message types have different `type` strings |
| WhatsAppInterface.ConstructRequestBody | src/components/WhatsAppInterface.tsx:38-113 | every body has `messaging_product` "whatsapp", `recipient_type` "individual", `to` the phone number and `type` the message type; text adds `{preview_url: link is non-empty, body: content}`; image adds `image.link` and, exactly when the message id is non-empty, `context.message_id`; interactive adds a "button" part with the content as body text and exactly the two reply buttons `button_1`/"Button 1" and `button_2`/"Button 2"; any other type is the base body alone |
| WhatsAppInterface.TypedPartUnderTypeName | src/components/WhatsAppInterface.tsx:38-113 | the body has a field named after its own `type` exactly for text, image and interactive messages |
| WhatsAppInterface.ContentOnlyInTextParts | src/components/WhatsAppInterface.tsx:38-113 | for types other than text and interactive, the body does not depend on the content |
| WhatsAppInterface.Composer.constructor | src/components/WhatsAppInterface.tsx:28-35 | the composer starts with an empty text message, empty inputs and no messages |
| WhatsAppInterface.Composer.HandleSend | src/components/WhatsAppInterface.tsx:116-148 | without a phone number or content nothing is sent and nothing changes; otherwise the message's request body is sent, and on success the message is appended to the conversation, its content is cleared and the link and message-id inputs are emptied; a failed send changes nothing |

## Left out

- The Graph API calls. These are `uploadMedia` and the `fetch` in `sendMessage`, `handleSend` and `submitFlow`. Also out: the environment variables, `alert`, `toast` and console logging. These are I/O. Their outcomes are parameters of `SendMessage.Post` and `WhatsAppInterface.Composer.HandleSend`.
- Parsing the request form data, and errors that `req.formData()` itself throws. A form field is already a string or absent; a `file` field is already a file.
- `Math.random` in `addScreen`. The text of `Math.random().toString(36)` is a parameter.
- `renderContentOptions`, `renderPreviewContent`, the JSX, the date picker state, and `submitFlow`. These are rendering and network code.
- `formatDate`, which relies on locale formatting, and `generateRandomString`, which relies on randomness.
- The location case of `constructRequestBody`. It parses floats with `parseFloat`.
- WhatsAppInterface.ConstructRequestBody: requires a message type other than location, because that case is not modelled.
- WhatsAppInterface.Composer.HandleSend: requires a message type other than location when the message can be sent, for the same reason.
- FlowEditor.FlowBuilder.UpdateContentOption: requires an option index of at most the option count. A larger index makes a JavaScript array with holes, which a sequence cannot represent.
- FlowDocument.ItemEdited: requires, for an option update, that the index is at most the option count, for the same reason.
- Item ids, screen ids and option texts in the serialiser are kept as strings. A repeated item id on one screen gives one payload key, as it does in an object.
- The JSON key order of request bodies, payloads and the flow JSON. Objects are maps here.
- String lengths are counted in characters rather than UTF-16 code units. This affects `truncateMessage` only for characters outside the Basic Multilingual Plane.
- `getTimeDifference` takes its instants as integer milliseconds, the value of `getTime()`. The arithmetic is exact, so the floating-point division of the source does not arise.
- The React scheduling of state updates. Each handler sees the state of the latest render, and the model applies its updates at once.
- The in-memory HTTP store of `src/app/api/messages/route.ts`. Its behaviour is that of `MessageStore`.
