# TF2 demo viewer: view derivations and load state

This project models, in Dafny, the logic of a browser viewer for Team Fortress 2
demo files (recorded matches). An external WebAssembly parser turns the file into
one JSON record. The record holds a header, users keyed by id, deaths, chat
messages and rounds. The viewer code does two things with that record, and both
are modelled here:

- **The views** (`src/App.tsx`). These are:
  - the tick clock `formatTick`;
  - the class names of `getClassName`;
  - the Overview numbers (duration `Xm Ys`, player count, protocol);
  - the Players tab: the user list sorted in place by team, team colours and class chips;
  - the Killfeed tab: the first 100 deaths, killer and victim lookup with an
    `Unknown`/`other` stand-in, and the "Showing first 100 of N events" footer;
  - the Chat tab: the kind label with `TF_Chat_` cut out;
  - the `.dem` filter on drop, the file picker, and the choice between spinner,
    upload screen and dashboard.
- **The load state machine** (`src/hooks/useDemoParser.ts`). Three state cells,
  `data`, `loading` and `error`, are changed step by step by `parseDemo` and `reset`.

Modules, one per concern:

- `Decimal`: decimal text of whole numbers, `padStart`, and reading digits back.
- `DemoTypes`: the record's datatypes.
- `Clock`: `formatTick` and the duration text.
- `Players`, `Killfeed`, `Chat`, `App`: the views.
- `Store`: the hook, as the class `DemoParser` over pure transition functions.
- `Wrappers`: `Option`.

Real numbers are kept out of the model:

- The seconds-per-tick interval is a non-negative fraction `num/den`. So
  `floor(tick * interval)` is taken as `tick * num / den`, an exact product
  (see `Clock.FormatTick` under "## Left out").
- The header duration is carried as whole seconds, `floor(duration)`.
- For a non-negative real `x`, `floor(x / 60)` equals `floor(x) / 60` and
  `floor(x % 60)` equals `floor(x) % 60`. So whole seconds give the same text as
  the source.

Facts about the code that the model follows closely:

- The Players tab sorts by team only: blue, then other, then red. This is
  `localeCompare` on the team names.
- `formatTick` falls back to the bare tick only when the interval is absent, 0 or NaN.
- The killfeed shows the first 100 deaths only.
- A new load does not cancel an earlier one that is still running.

## Model

| member | source | states |
|---|---|---|
| `Clock.FormatTick` | src/App.tsx:308-314 | With no interval or a zero interval, the text is the tick's decimal text and reads back to the tick. Otherwise it is `M:S` text that reads back to minutes `s / 60` and seconds `s % 60`, where `s = floor(tick * interval)`. The minutes field is 2 digits below 10 minutes and the minutes' full decimal text otherwise, so the text is `MM:SS` exactly. |
| `Clock.ClockText` | src/App.tsx:310-313 | Whole seconds `s` become `digits:dd`. The minutes field has at least two digits and is never cut: its length is 2 below 10 minutes and the length of the minutes' decimal text otherwise. There is no hour field. The fields read back as `(s / 60, s % 60)`, so `60*M + S = s` with `S < 60`. |
| `Clock.DurationText` | src/App.tsx:126 | The `Xm Ys` duration reads back as minutes `d / 60` and seconds `d % 60` of the whole-second duration. The leading digit run is exactly as long as the minutes' decimal text, and the seconds field exactly as long as the seconds' decimal text, so neither field is padded. |
| `Decimal.NatToString` | src/App.tsx:309 | The decimal text has at least one character and only digits. It is one digit long exactly below 10. It has no leading zero unless the number is 0. |
| `Decimal.ValueOfNatToString` | src/App.tsx:309 | Reading the decimal text of `n` back gives `n`. |
| `Decimal.PadStart` | src/App.tsx:313 | `padStart`: the length is the larger of the text's length and the width. The text is kept whole at the end. Everything in front is the fill character. |
| `Decimal.PaddedValue` | src/App.tsx:313 | Zero-padding a number's decimal text keeps it all digits and keeps its value. |
| `Players.ClassName` | src/App.tsx:303-306 | The result is always one of the ten table names. Ids 0..8 give the table entry, which is never "Unknown". Every other id (9, negative, too large) gives "Unknown", in both directions. |
| `Players.ClassNameRoundTrip` | src/App.tsx:303-306 | The name of each class id 0..8 leads back to that id. Every other id gives the name no class has. |
| `Players.ClassChips` | src/App.tsx:195-202 | Each chip has a count above 0. A chip is present exactly when some entry with a positive count gives it, labelled by `ClassName`. |
| `Players.ClassChipsAppend` | src/App.tsx:195-202 | The chips keep entry order: the chips of two runs of entries are the first run's chips followed by the second's. |
| `Players.TeamColour` | src/App.tsx:176-179 | Red colouring exactly for team red, blue exactly for blue, neutral exactly for other. |
| `Players.TeamRankIsNameOrder` | src/App.tsx:174 | The blue < other < red rank order is exactly the lexicographic order of the names 'blue', 'other', 'red' that `localeCompare` compares. |
| `Players.ByTeam` | src/App.tsx:174 | The team sort of a user list: blue users, then other, then red, each group in list order. It has as many users as the list. |
| `Players.ByTeamPermutation` | src/App.tsx:174 | The team sort is a permutation of the user list: same multiset, same length. |
| `Players.ByTeamSorted` | src/App.tsx:174 | The team sort puts blue before other before red. |
| `Players.ByTeamStable` | src/App.tsx:174 | The sort is stable: the users of each team keep their list order. |
| `Players.StableSortIsByTeam` | src/App.tsx:174 | Any list sorted by team whose team groups equal the input's is the team sort. So `ByTeam` is the only result a stable sort can give. |
| `Players.SortedIsByTeam` | src/App.tsx:174 | A list already sorted by team is its own team sort. |
| `Players.ByTeamIdempotent` | src/App.tsx:174 | Sorting the sorted list again changes nothing. |
| `Players.SortByTeam` | src/App.tsx:174 | In-place `users.sort(...)`: afterwards the array holds the stable team sort of its old contents. |
| `Players.UserList` | src/App.tsx:170 | `Object.values(data.users)`: exactly one entry per user key, and every entry is a user of the record. |
| `Players.UserListInKeyOrder` | src/App.tsx:170 | `Object.values` lists the users in ascending key order: the i-th entry is the user under the i-th smallest key. |
| `Players.SortedKeys` | src/App.tsx:170 | The keys in strictly ascending order, each key once. |
| `Players.PlayerOrder` | src/App.tsx:170-174 | The Players tab's order is the team sort of the key-ordered user list, one card per user. |
| `Players.SortedCopy` | src/App.tsx:170-174 | `users.sort(...)` on the fresh array `Object.values` returns: the result is the stable team sort of the list, of the same length. |
| `Killfeed.Resolve` | src/App.tsx:227-228 | An id present in the user table gives that user unchanged. An absent id (negative ids included) gives the stand-in named "Unknown" of team other, coloured neutral. |
| `Killfeed.Window` | src/App.tsx:226 | The window holds the first `min(100, n)` deaths, in record order. |
| `Killfeed.Footer` | src/App.tsx:264-267 | The footer is present exactly when there are more than 100 deaths. |
| `Killfeed.FooterWhenCut` | src/App.tsx:226-267 | The footer appears exactly when the window leaves deaths out. Its text is "Showing first 100 of ", the decimal text of the death count, then " events", so the number shown is exactly the count. |
| `Killfeed.RowOf` | src/App.tsx:227-258 | One death's row. The killer is a known user exactly when the killer id is in the table, and then it is the user under that id; the same holds for the victim. The time is the death's tick through `FormatTick` with the record's interval, and the weapon is the death's. |
| `Killfeed.Rows` | src/App.tsx:226-260 | One row per windowed death, in order. Each row keeps the death's weapon. Killer and victim are known users exactly when their ids are in the table. Killer and victim are `Resolve` of the death's own ids, and the time is `FormatTick` of its tick with the record's interval. |
| `Chat.IndexFrom` | src/App.tsx:290 | The first occurrence of the pattern at or after a position, and no earlier one; or none at all. |
| `Chat.IndexOf` | src/App.tsx:290 | The first occurrence of the pattern in the text, and no earlier one; `None` exactly when there is none. |
| `Chat.KindLabel` | src/App.tsx:290 | Without `TF_Chat_` the kind is shown unchanged. With it, the label is 8 characters shorter. |
| `Chat.KindLabelRestores` | src/App.tsx:290 | Putting `TF_Chat_` back at its first occurrence gives the kind again: exactly the first occurrence was cut. |
| `Chat.KindLabelOfPrefixed` | src/App.tsx:290 | A kind starting with `TF_Chat_` is shown as the rest of it. |
| `Chat.LineOf` | src/App.tsx:283-296 | One message's line: its sender and text unchanged, the kind shown through `KindLabel`, the time through `FormatTick` with the record's interval. |
| `Chat.Lines` | src/App.tsx:282-297 | One chat line per message, in order, with its sender, text, kind label and time. |
| `Chat.CountBadge` | src/App.tsx:279 | The badge is the decimal text of the number of chat lines followed by " messages", so the number shown is exactly the count. |
| `App.ScreenOf` | src/App.tsx:31-68 | The spinner exactly while loading. Otherwise, the upload screen exactly when there is no record, and the dashboard of the record exactly when there is one. The upload screen shows the error exactly when it is a non-empty string. |
| `App.SpinnerOnlyWhileLoading` | src/App.tsx:31-38 | A started load shows the spinner. No state reached by whole loads and resets does. |
| `App.ScreenAfterFailure` | src/App.tsx:40-66 | A failed first load shows the upload screen with the failure text (when non-empty). A failed reload keeps the old record's dashboard; this holds of the hook, but the App itself never starts a load while a record is shown, because the drop zone and file input exist only without one. |
| `App.EndsWithIsSuffix` | src/App.tsx:19 | `endsWith(suffix)` holds exactly when the name is some text followed by the suffix. |
| `App.DroppedFile` | src/App.tsx:16-22 | A drop loads a file exactly when there is a first dropped file and its name ends in `.dem` (case-sensitive). That first file is the one loaded. |
| `App.SelectedFile` | src/App.tsx:24-29 | A file pick loads the first picked file whenever there is one. |
| `App.OnDrop` | src/App.tsx:16-22 | A drop accepted by `DroppedFile` runs one whole load of that file. Any other drop leaves the hook's state unchanged. |
| `App.OnFileSelect` | src/App.tsx:24-29 | A pick runs one whole load of the first file. An empty pick leaves the state unchanged. |
| `App.Overview` | src/App.tsx:124-153 | The duration text is `DurationText` of the whole-second duration, so it reads back to `(d / 60, d % 60)` with unpadded fields. The player count is the number of user keys. The protocol text is the protocol's decimal text and reads back to it. Map, server, recorder (`nick`) and game are the header's own strings. |
| `App.PlayerCountMatchesCards` | src/App.tsx:128 | The Overview's player count equals the number of cards on the Players tab. |
| `Store.ErrorText` | src/hooks/useDemoParser.ts:22 | An `Error` gives its message. Any other thrown value gives 'Unknown error occurred while parsing demo'. |
| `Store.Cleared` | src/hooks/useDemoParser.ts:28-32 | `reset` gives the initial state from any state: no record, not loading, no error. |
| `Store.Loaded` | src/hooks/useDemoParser.ts:10-26 | A whole `parseDemo` ends with `loading` false. Success replaces the record wholesale and leaves no error. Failure keeps the previous record and sets the error text. |
| `Store.ResetClears` | src/hooks/useDemoParser.ts:28-32 | Reset returns every state to the initial one (no record, no error, not loading), so it is idempotent. |
| `Store.RunState` | src/hooks/useDemoParser.ts:10-32 | After any sequence of whole loads and resets: nothing is loading. The record is that of the last successful load not followed by a reset. The error is set exactly when the last event was a failed load, and then holds that failure's text. |
| `Store.FailedReloadKeepsRecord` | src/hooks/useDemoParser.ts:17-22 | A failed reload right after a successful load keeps that record (and so its header) and only sets the error. This is a property of the hook: the App offers no way to load while a record is shown, only `reset`. |
| `Store.DemoParser.constructor` | src/hooks/useDemoParser.ts:6-8 | The cells start as no record, not loading, no error. |
| `Store.DemoParser.Start` | src/hooks/useDemoParser.ts:11-12 | `loading` becomes true and `error` null; `data` is untouched. |
| `Store.DemoParser.Commit` | src/hooks/useDemoParser.ts:19 | `data` becomes the parsed record; the other cells are untouched. |
| `Store.DemoParser.Report` | src/hooks/useDemoParser.ts:20-22 | `error` becomes the thrown value's text; the other cells are untouched. |
| `Store.DemoParser.Finish` | src/hooks/useDemoParser.ts:23-25 | `loading` becomes false; the other cells are untouched. |
| `Store.DemoParser.ParseDemo` | src/hooks/useDemoParser.ts:10-26 | Start, then commit or report by outcome, then finish: the new state is `Loaded` of the old one. |
| `Store.DemoParser.Reset` | src/hooks/useDemoParser.ts:28-32 | From any state, the cells become the initial state. |

## Left out

- The binary parser (`tf2-wasm-demo/src/lib.rs`), the WASM `init()`, `file.arrayBuffer()` and `JSON.parse`. They are I/O and foreign code. One `parse` function from file to outcome stands for all of them: a record, or the thrown value.
- Overlapping `parseDemo` calls. They are asynchronous interleaving, and the code has no generation counter or cancellation. Loads are modelled as whole, sequential calls; the steps of one call are still separate methods.
- `Clock.FormatTick`: negative intervals are not modelled. The record's interval is positive, and the fraction model has no negative values. For these the source would print negative fields with JavaScript's truncating `%`. A NaN interval is not modelled either; the source falls back to the bare tick for it, as for 0.
- `Clock.FormatTick`: takes `tick * interval` as an exact product of the tick and the fraction `num/den`. JavaScript multiplies in doubles and rounds the product. A JSON interval such as 0.015 is only approximately a fraction, so near whole-second boundaries the floored seconds may differ by one. Double rounding is not modelled.
- `Decimal.NatToString`: gives plain digits for every size. JavaScript switches to exponent notation from 10^21 on.
- `Players.UserList`: orders every key ascending. JavaScript does so only for array-index keys (below 2^32 - 1). The record's user ids are small.
- `Players.SortByTeam`: proved to give the result of a stable sort. JavaScript's sort algorithm itself is not modelled, only that `Array.prototype.sort` is stable.
- `Players.ClassChips`: class keys are taken as already-parsed integers. A key `parseInt` cannot read (NaN) would also show "Unknown", and that is not modelled.
- `Players.ClassChips`: takes the user's class entries in the order the record gives them, without repeated keys assumed. `Object.entries` would list integer-like keys in ascending order, and an object cannot repeat a key; that order is not derived here.
- `header.ticks.toLocaleString()`: its output depends on the locale.
- Rendering: JSX, CSS class strings, `cn`/`clsx`/`twMerge`, icons, the active tab, and the click that opens the file picker.
- The record's `pauses` field: it is not used by any view.
- `console.error` in the failure path: a log line only.
