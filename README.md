# Ukrainian alphabet page — verified model of its core logic

The page shows a grid of the 33 letters of the Ukrainian alphabet and plays
each letter's sound on click. It also has a "random letter" button, a
light/dark theme toggle and a settings panel that opens and closes. Most of
`script.js` wires the DOM and audio. This project models the parts that carry
state and logic, and proves what they promise:

- **`Letters`** (`letters.dfy`): the `Letter` tile and the singly linked
  `LinkedList` that stores the tiles. `append` walks to the tail, `find`
  searches recursively, and `toArray` flattens the list. A ghost sequence
  `nodes` is the list's abstract value. `Valid()` ties `head`, every `next`
  link and the `size` counter to `nodes`, and keeps the chain free of
  repeated nodes, so it has no cycles.
- **`Alphabets`** (`alphabet.dfy`): the `Alphabet`, which holds a list plus
  three category buckets: vowels, consonants and the soft sign `Ь`. It also
  has `categorize`, `addLetter`, the random pick and the `PlayRandomCommand`.
  Start-up adds the 33 letters in order. `Alphabet.Valid()` says that each
  bucket is exactly the subsequence of the list's letters in that category.
- **`Themes`** (`themes.dfy`): the key/value store (a map), the `AppConfig`
  singleton and its initial theme, the two theme strategies, and
  `ThemeManager` with `applyCurrentTheme` and `toggle`.
- **`SettingsPanels`** (`settings_panel.dfy`): the panel's visibility flag
  and inline `display` style under its two click listeners. The button's
  listener runs first. The click then bubbles up to the document's listener.

Inputs the page gets from the browser become parameters:

- `Math.random()` is a real `u` with `0 <= u < 1`.
- `localStorage` is a `Storage` object holding a `map<string, string>`.
- A click is described by where it lands (`Target`).
- The document body's `light-theme` class is a boolean on a `Body` object.
- The presence of page elements is given as booleans.

Behaviour of `script.js` that the model keeps as written:

- Any non-empty stored theme name becomes the current theme (script.js:8).
  For a name without a strategy, `applyCurrentTheme` throws (script.js:202).
  `ThemeManager.ApplyCurrentTheme` returns `ok == false` in that case.
- On an empty list the random pick is `undefined` (script.js:167). The model
  returns `null`.
- The document listener hides the panel on every click outside the panel
  and the button, whether or not the panel is open (script.js:228-233).
- A click on an element nested inside the settings button bubbles to the
  button's listener, which flips the flag and may show the panel. The
  document listener then hides it, because the target is not the button
  element itself (script.js:223-231). Such a click always leaves the panel
  hidden.

## Model

| member | source | states |
|---|---|---|
| `Letters.Letter.constructor` | script.js:29-33 | a new letter keeps its symbol and sound file and is not linked to anything (`next == null`) |
| `Letters.LinkedList.constructor` | script.js:66-69 | a new list is valid, has no head, has size 0 and holds no letters |
| `Letters.LinkedList.Append` | script.js:71-82 | the list stays valid; its letters become the old letters followed by the new one; `size` grows by one; the head changes only when the list was empty |
| `Letters.LinkedList.FindFrom` | script.js:85-89 | the search from position `k` returns null exactly when no letter from `k` on has the symbol; otherwise it returns the first such letter at or after `k` |
| `Letters.LinkedList.Find` | script.js:85-89 | `find(s)` returns null exactly when `s` is not among the list's symbols; otherwise it returns the first letter in list order whose symbol is `s` |
| `Letters.LinkedList.ToArray` | script.js:91-99 | the result is exactly the list's letters in order from `head`, and its length equals `size` |
| `Alphabets.CategoryIndex` | script.js:150-153 | the chosen bucket is below 3: 0 exactly for the ten vowels, 2 exactly for `Ь`, 1 for every other symbol |
| `Alphabets.BucketAppend` | script.js:144-155 | adding one letter extends only the bucket of that letter's category, by that letter |
| `Alphabets.BucketMembership` | script.js:150-155 | a letter is in bucket `c` exactly when it is in the list and its category is `c`, so each letter is in exactly one bucket |
| `Alphabets.BucketSizes` | script.js:141-155 | the three bucket lengths add up to the number of letters in the list |
| `Alphabets.RandomIndex` | script.js:167 | `Math.floor(Math.random() * n)` is a valid index when `n > 0` and is 0 when `n == 0` |
| `Alphabets.RandomIndexCovers` | script.js:165-168 | every position of a non-empty list is picked for some value in `[0, 1)` |
| `Alphabets.Alphabet.constructor` | script.js:136-142 | a new alphabet has an empty list and three empty buckets |
| `Alphabets.Alphabet.SizeIsBucketTotal` | script.js:144-148 | in a valid alphabet `letters.size` equals the sum of the three bucket lengths |
| `Alphabets.Alphabet.Categorize` | script.js:150-155 | the letter is pushed onto the bucket of its category; the other two buckets are unchanged |
| `Alphabets.Alphabet.AddLetter` | script.js:144-148 | the alphabet stays valid (each bucket is still the list's letters of its category); the letter is appended to the list; size equals the sum of the bucket lengths |
| `Alphabets.Alphabet.GetRandomLetter` | script.js:165-168 | null exactly when the list is empty; otherwise the letter at `floor(u * size)`, which is one of the list's letters |
| `Alphabets.PlayRandomCommand.constructor` | script.js:173-175 | the command keeps the alphabet it was given |
| `Alphabets.PlayRandomCommand.Execute` | script.js:177-180 | a letter is played exactly when the alphabet is non-empty; the played letter is the one at `floor(u * size)` in list order, and it is one of the alphabet's letters |
| `Alphabets.BucketCount` | script.js:144-155 | the length of bucket `c` is the number of the list's letters whose category is `c` |
| `Alphabets.LettersDataCategorized` | script.js:271-305 | the category of each of the 33 start-up symbols, entry by entry, in alphabet order |
| `Alphabets.LettersDataBuckets` | script.js:269-311 | letters filed in start-up order fill the buckets with 10 vowels, 22 consonants and the soft sign |
| `Alphabets.AddAll` | script.js:308-311 | each entry becomes a new letter appended in order with its symbol and sound; earlier letters stay; the alphabet stays valid |
| `Alphabets.Initialize` | script.js:269-311 | start-up yields a valid alphabet with the 33 symbols in the listed order; the buckets hold 10 vowels, 22 consonants and the soft sign, 33 in all |
| `Themes.GetItem` | script.js:8 | a stored entry is returned when the key is present, and None (null) when it is absent |
| `Themes.Storage.SetItem` | script.js:209 | the store maps the key to the new value and is otherwise unchanged |
| `Themes.InitialTheme` | script.js:8 | the stored theme when it is present and non-empty, otherwise `dark`; never empty |
| `Themes.AppConfig.constructor` | script.js:5-10 | a first configuration has volume 1.0 and the initial theme read from the store |
| `Themes.NewAppConfig` | script.js:2-10 | the first construction builds and records a fresh configuration from the store; every later one returns the recorded instance unchanged and does not read the store |
| `Themes.Apply` | script.js:122-132 | after a strategy is applied, the body carries `light-theme` exactly when the strategy is the light one |
| `Themes.Toggled` | script.js:206 | the next theme always has a strategy, and it is `light` exactly when the current theme is `dark` |
| `Themes.ToggleTwiceRestores` | script.js:205-210 | from `dark` or `light`, a toggle changes the theme and a second toggle restores it |
| `Themes.ToggleTwiceFromUnknown` | script.js:205-210 | from any other stored name, two toggles end on `light`, not on the starting name |
| `Themes.ToggledThemeReloads` | script.js:205-210 | a configuration built from the store after a toggle reads back the toggled theme |
| `Themes.ThemeManager.constructor` | script.js:192-198 | the manager takes the shared configuration: the existing instance, or a fresh one built from the store |
| `Themes.ThemeManager.ApplyCurrentTheme` | script.js:201-203 | succeeds exactly when the current theme has a strategy, and then the body's class matches it; otherwise (TypeError) the body is unchanged |
| `Themes.ThemeManager.Toggle` | script.js:205-210 | the theme becomes the toggled one; the body's class matches it; the store's `theme` entry is set to it and reloads as it; the volume is unchanged |
| `SettingsPanels.OnButtonClick` | script.js:223-226 | the button's listener flips `isVisible`, and afterwards the display is `block` exactly when the panel is visible |
| `SettingsPanels.OnDocumentClick` | script.js:228-233 | a click elsewhere or on an element inside the button hides the panel (`isVisible` false, display `none`); a click on the button element or inside the panel changes nothing |
| `SettingsPanels.Click` | script.js:223-233 | a click on the button element flips visibility and is not undone by the document listener; a click on an element inside the button runs both listeners and ends hidden; a click elsewhere hides the panel; a click inside the panel leaves it as it was |
| `SettingsPanels.ButtonTwiceRestores` | script.js:223-226 | two clicks on the button give back the original visibility |
| `SettingsPanels.RunAppend` | script.js:221-233 | a run of clicks followed by one more click equals that click applied to the state the run left |
| `SettingsPanels.RunKeepsSynced` | script.js:221-233 | once the display matches the flag (`block` exactly when visible), every run of clicks keeps them matched |
| `SettingsPanels.RunEndingOutsideCloses` | script.js:223-233 | any run of clicks that ends with a click elsewhere, or on an element inside the button, leaves the panel hidden |
| `SettingsPanels.SettingsPanel.constructor` | script.js:221 | the listeners start with the panel not visible and the page's own display style |
| `SettingsPanels.SettingsPanel.HandleButtonClick` | script.js:223-226 | the in-place state becomes the button listener's result |
| `SettingsPanels.SettingsPanel.HandleDocumentClick` | script.js:228-233 | the in-place state becomes the document listener's result |
| `SettingsPanels.SettingsPanel.Dispatch` | script.js:223-233 | the in-place state becomes the result of one click: the button's listener when the click bubbles through the button, then the document's |
| `SettingsPanels.Initialize` | script.js:215-221 | there is no panel exactly when the button or the panel is missing; otherwise a fresh, hidden panel state |

## Left out

- Rendering (`Letter.render`, `Alphabet.render`) and event wiring (`getElementById`, `addEventListener`): DOM plumbing. The page's elements are represented only by the state they show.
- Audio (`playSound`, `new Audio`, `AudioError`): browser calls. `PlayRandomCommand.Execute` returns the letter whose sound would be started.
- `VolumeManager` and `AppConfig.volume` updates: floating-point parsing (`parseFloat`) and rounding of the percentage label. The model keeps only the initial volume 1.0.
- `Observable` and `notify`: nothing subscribes, so `addLetter`'s notification has no effect.
- `LetterFactory.create`: it is `new Letter(symbol, sound)`, which `AddAll` calls directly.
- `AppConfig` in `AudioElement`: each letter's reference to the shared configuration is used only for playback.
- `Math.random`: its value is an input `u` in `[0, 1)`. The model proves that every index can be picked. Uniformity is a probabilistic claim and is not modelled.
- Theme names that are JavaScript property names inherited by every object (such as `constructor`): `this.themes[name]` would find an inherited member instead of `undefined`. The model treats every name other than `dark` and `light` as having no strategy.
- `Letters.LinkedList.Append`: requires the letter to be unlinked and not already in the list. Every caller passes a letter fresh from the constructor. Appending a letter that is already in the list would create a cycle, and `toArray` would never end.
