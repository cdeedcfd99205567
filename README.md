# Channel search on the home screen of a chat client

This project models the channel list on the home screen of an Android chat
client. The home screen's view model holds three pieces of state:

- the full channel list, rebuilt each time the realtime database reports a
  new snapshot of the `channel` node;
- the search text, stored exactly as the user typed it;
- the list shown on screen.

The shown list is recomputed whenever the channel list or the search text
changes. The search text is lower-cased. If it is then empty, every channel
is shown. Otherwise only the channels whose lower-cased name contains it are
shown, in their original order.

Files:

- `Text.dfy` (module `Text`) holds the two string operations the search uses.
  `LowerStr` does ASCII lower-casing. `Contains` is an executable substring
  test, proved equal to the specification predicate `IsSubstring`.
- `Channel.dfy` (module `ChannelModel`) holds the `Channel` record with `id`,
  `name` and `createdAt`, and the snapshot child a channel is built from.
  A child's value becomes the channel name through the platform's string
  conversion, and an absent value becomes `"null"`.
- `HomeViewModel.dfy` (module `Home`) holds the filter as pure functions
  (`Keep`, `Filter`) and the lemmas about it. It also holds the loop that
  builds the channel list from a snapshot (`ChannelsFromSnapshot`). Finally it
  holds the class `HomeViewModel`, which has three fields and the invariant
  `Valid()`: `filteredChannels == Filter(channels, searchQuery)`.

The database listener's callback becomes the method `OnDataChange`, which
takes the snapshot's children as a parameter. Each channel's creation time
is a clock reading. The model passes these readings in as `stamps`, one per
child.

## Model

| member | source | states |
|---|---|---|
| `Text.Lower` | app/src/main/java/com/example/dacs/viewmodel/home/HomeViewModel.kt:57 | upper-case ASCII letters map to the matching lower-case letter; every other character is unchanged; no result is an upper-case letter |
| `Text.LowerStr` | app/src/main/java/com/example/dacs/viewmodel/home/HomeViewModel.kt:57 | lower-casing keeps the length and lowers each character in place |
| `Text.LowerStrIdempotent` | app/src/main/java/com/example/dacs/viewmodel/home/HomeViewModel.kt:62 | lower-casing an already lower-cased text changes nothing |
| `Text.LowerStrEmpty` | app/src/main/java/com/example/dacs/viewmodel/home/HomeViewModel.kt:57-58 | the lower-cased search text is empty exactly when the typed text is empty |
| `Text.Contains` | app/src/main/java/com/example/dacs/viewmodel/home/HomeViewModel.kt:62 | the name-contains-query test used by the filter. The empty query is contained in every name, and a query longer than the name never is. That it holds exactly when the query occurs in the name is stated by `Text.ContainsIsSubstring` |
| `Text.ContainsIsSubstring` | app/src/main/java/com/example/dacs/viewmodel/home/HomeViewModel.kt:62 | the executable containment test holds exactly when the query occurs at some offset of the name (both directions) |
| `Text.ContainsEmpty` | app/src/main/java/com/example/dacs/viewmodel/home/HomeViewModel.kt:62 | every name contains the empty text |
| `Home.Matches` | app/src/main/java/com/example/dacs/viewmodel/home/HomeViewModel.kt:62 | a channel matches exactly when the lower-cased query occurs somewhere in its lower-cased name |
| `Home.Filter` | app/src/main/java/com/example/dacs/viewmodel/home/HomeViewModel.kt:57-64 | the shown list: never longer than the full list, and every channel in it comes from the full list. Its full characterisation (order, multiplicities, which channels) is stated by `Home.FilterSpec` |
| `Home.Keep` | app/src/main/java/com/example/dacs/viewmodel/home/HomeViewModel.kt:61-63 | the filtered list is no longer than the full list, and every channel in it comes from the full list and matches the query |
| `Home.SubsequenceNoLonger` | app/src/main/java/com/example/dacs/viewmodel/home/HomeViewModel.kt:61-63 | a list obtained by deleting elements is never longer than the original |
| `Home.KeepIsSubsequence` | app/src/main/java/com/example/dacs/viewmodel/home/HomeViewModel.kt:61-63 | filtering keeps the surviving channels in their original relative order |
| `Home.KeepCounts` | app/src/main/java/com/example/dacs/viewmodel/home/HomeViewModel.kt:61-63 | each matching channel appears in the filtered list as often as in the full list; a non-matching channel does not appear at all |
| `Home.KeepEmptyQuery` | app/src/main/java/com/example/dacs/viewmodel/home/HomeViewModel.kt:57-62 | the general filter with an empty query returns the full list unchanged |
| `Home.FilterIsKeep` | app/src/main/java/com/example/dacs/viewmodel/home/HomeViewModel.kt:57-63 | the empty-query shortcut agrees with the general filter for every search text |
| `Home.FilterEmptyQuery` | app/src/main/java/com/example/dacs/viewmodel/home/HomeViewModel.kt:57-59 | an empty search text lower-cases to empty and nothing else does; with it the shown list is the full list, in the same order and with the same duplicates |
| `Home.FilterSpec` | app/src/main/java/com/example/dacs/viewmodel/home/HomeViewModel.kt:56-65 | the shown list is a subsequence of the full list and no longer. Each channel appears in it as often as in the full list when its lower-cased name contains the lower-cased search text, and otherwise not at all. A channel is shown exactly when it is in the full list and matches |
| `Home.FilterIgnoresCase` | app/src/main/java/com/example/dacs/viewmodel/home/HomeViewModel.kt:57-62 | search texts with the same lower-cased form show the same list, and searching for the lower-cased text shows what the typed text shows |
| `ChannelModel.ValueToString` | app/src/main/java/com/example/dacs/viewmodel/home/HomeViewModel.kt:38 | the text form of a child's value: the stored string itself, or `"null"` when no value is stored |
| `ChannelModel.ChannelOf` | app/src/main/java/com/example/dacs/viewmodel/home/HomeViewModel.kt:38 | the channel built from one child takes the child's key as id, the value's text form as name and the given clock reading as creation time; `Home.ChannelsFromSnapshot` applies it to every child in order |
| `Home.ChannelsFromSnapshot` | app/src/main/java/com/example/dacs/viewmodel/home/HomeViewModel.kt:36-40 | one channel per snapshot child, in snapshot order. Its id is the child's key and its name is the child's value converted to text (`"null"` when absent). Its creation time is the clock reading taken for it |
| `Home.HomeViewModel.constructor` | app/src/main/java/com/example/dacs/viewmodel/home/HomeViewModel.kt:19-26 | the view model starts with no channels, an empty search text and an empty shown list, so the invariant holds from construction |
| `Home.HomeViewModel.OnDataChange` | app/src/main/java/com/example/dacs/viewmodel/home/HomeViewModel.kt:35-43 | a snapshot replaces the full list with its channels in snapshot order, keeps the search text, and re-establishes the invariant |
| `Home.HomeViewModel.UpdateSearchQuery` | app/src/main/java/com/example/dacs/viewmodel/home/HomeViewModel.kt:51-54 | stores the search text as typed (not lower-cased) and keeps the full list. It re-establishes the invariant. Repeating the search text already in force leaves the shown list unchanged |
| `Home.HomeViewModel.FilterChannels` | app/src/main/java/com/example/dacs/viewmodel/home/HomeViewModel.kt:56-65 | writes only the shown list, leaves the full list and the search text untouched, and establishes the invariant |

## Left out

- Registering the realtime-database listener and its cancellation callback (app/src/main/java/com/example/dacs/viewmodel/home/HomeViewModel.kt:28-34, 45-48) are database I/O. The model replaces the listener with the method `OnDataChange`, which takes the snapshot's children directly.
- `addChannel` (app/src/main/java/com/example/dacs/viewmodel/home/HomeViewModel.kt:67-72) writes to the database and re-registers the listener. It is I/O and is not modelled.
- Text.LowerStr: lowers ASCII A-Z only, one character at a time. The platform's `lowercase()` applies Unicode case mapping in the invariant locale. That mapping can change a string's length (U+0130 becomes two characters) and is not per-character (Greek final sigma); the model captures neither.
- Snapshot children: a child's key is modelled as always present, since database children always have keys. The forced unwrap of the key therefore never fails in the model.
- Snapshot values: only absent values and string values are modelled. The text form of numbers, booleans, lists and maps stored under a channel key is not modelled.
- The clock reading that becomes each channel's `createdAt` is an input (`stamps`), not a call to the system clock.
- The state-flow wrappers, their observers and the threads that deliver callbacks are not modelled. The three flows are plain fields, and each method runs to completion before the next one starts.
- The rest of the application is not part of this model: chat, AI chat, profile, image upload, push notifications, dependency wiring and the UI screens. These parts forward calls to external services or draw the UI.
