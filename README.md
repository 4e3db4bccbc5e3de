# pixiv.moe gallery page and image viewer, modelled in Dafny

This project models two parts of the pixiv.moe browsing client.

- **The gallery page** (`src/pages/Gallery.tsx`). Its handlers drive the shared gallery store. `fetchSource` asks for a page, resetting the cursor for a first load. `onLoadMore` stops once the store's `errorTimes` reaches 3. `onSearch`, `refreshContent` and `onKeywordClick` switch the search word in a fixed order of calls. `fetchTags` asks for tags only while there are none. The mount effect seeds the word from the `entry` URL parameter or from storage. `renderKeywords` builds the drawer's keyword list with its highlight and its extra "current word" entry.
- **The image viewer** (`src/components/ImageBox.tsx`). It holds an index in component state and steps it circularly with the arrow keys or two click zones. A render guard hides it when `items[index]` is missing or empty, and a 1-based chip shows the position.

Files:

- `js_runtime.dfy` (module `JsRuntime`) holds the JavaScript built-ins both components rely on. `Option` stands for `undefined`. `Trim` models `String.prototype.trim` over ECMAScript whitespace. `Rem` models the `%` operator, which truncates toward zero and gives NaN for a zero divisor.
- `gallery.dfy` (module `GalleryPage`) has the page state and the keyword list. The store's fields are the record `Store`. Every call the page makes into a collaborator that changes something is appended to a log of `Event`s: the store's setters, `gallery.fetchSource()`, `gallery.fetchTags()`, `Storage.set`, `history.push`, the layout's `toTop` and the search input's `setValue`. Each handler has two forms:
  - a method of the class `Gallery`, which performs the calls one after the other, as the page does;
  - a transition function on the value `PageState`, which specifies the method and carries the lemmas.
- `image_box.dfy` (module `ImageViewer`) has the class `ImageBox`, whose `index` field is a `Num` (an integer or NaN). `OnPrev` and `OnNext` replace it. The functions `Prev`, `Next`, `Shows`, `PositionLabel` and `Zones` state the arithmetic, the guard, the chip and the click zones.

Points where the code behaves less tidily than one might expect, and which the model keeps:

- The viewer's starting index is not clamped. `ImageBox` takes `props.index` as it comes (src/components/ImageBox.tsx:121). So the constructor takes any integer, and the render guard, not the index, keeps an out-of-range start from being drawn.
- The index can leave the list. The key bindings are active even when the viewer draws nothing, and `% 0` on an empty list gives NaN (src/components/ImageBox.tsx:123-128). `Next` and `Prev` model this NaN, and it persists.
- JavaScript's `%` truncates rather than wraps. So one `onNext` from a negative index gives a non-positive index: `(-2 + 1) % 3` is -1, not 2. `Rem` models this.

## Model

| member | source | states |
|---|---|---|
| `JsRuntime.Trim` | src/pages/Gallery.tsx:182 | `word.trim()` is empty exactly when the word is blank (all ECMAScript whitespace); otherwise it starts and ends with a non-whitespace character |
| `JsRuntime.Rem` | src/components/ImageBox.tsx:123-125 | JavaScript `%` with divisor `n`: NaN iff `n` is 0; otherwise the result lies strictly between `-n` and `n`, equals the mathematical remainder on a non-negative dividend and is non-positive on a negative one |
| `GalleryPage.InitialXRestrict` | src/pages/Gallery.tsx:63-65 | the initial filter `Storage.get('x_restrict') \|\| false` is false when nothing is stored and is the stored boolean otherwise |
| `GalleryPage.CachedWord` | src/pages/Gallery.tsx:153-154 | the word seeded from storage is the stored non-empty string, or `"ranking"` when none is stored; never empty |
| `GalleryPage.Gallery.constructor` | src/pages/Gallery.tsx:60-65 | the page starts with the shared store as it is, its search option read from storage, and nothing logged |
| `GalleryPage.Gallery.FetchSource` | src/pages/Gallery.tsx:69-75 | the new page state is `FetchSourceStep` of the old: cursor to 1 on a first load, the filter copied into the store, one request |
| `GalleryPage.FetchSourceRequestsOnce` | src/pages/Gallery.tsx:69-75 | a first load sets `page` to 1 and a later load keeps it. Either way the search option becomes the store's `xRestrict`. Exactly one request goes out, for the store's word, that filter and that page, and nothing else changes |
| `GalleryPage.Gallery.OnLoadMore` | src/pages/Gallery.tsx:77-81 | the new page state is `LoadMoreStep` of the old |
| `GalleryPage.LoadMoreRespectsCeiling` | src/pages/Gallery.tsx:77-81 | with `errorTimes` of 3 or more nothing changes and nothing is requested; below 3, the page state changes only by the filter copied into the store and one request for the current page |
| `GalleryPage.Gallery.RefreshContent` | src/pages/Gallery.tsx:83-89 | the new page state is `RefreshStep` of the old |
| `GalleryPage.RefreshRestartsCurrentWord` | src/pages/Gallery.tsx:83-89 | refreshing clears the error counter and the items, scrolls to the top and requests page 1 of the unchanged word, in that order; storage and the search option are unchanged |
| `GalleryPage.Gallery.FetchTags` | src/pages/Gallery.tsx:91-95 | the new page state is `FetchTagsStep` of the old |
| `GalleryPage.FetchTagsOnlyWhenEmpty` | src/pages/Gallery.tsx:91-95 | tags are requested only when the store has none, and that request is the only change; with tags present the call is a no-op |
| `GalleryPage.Gallery.OnSearch` | src/pages/Gallery.tsx:97-111 | the new page state is `SearchStep` of the old |
| `GalleryPage.SearchGuards` | src/pages/Gallery.tsx:97-102 | an empty word changes nothing; a numeric word only navigates to `/illust/<word>`: store, storage, search option and request count stay as they were |
| `GalleryPage.SearchTransition` | src/pages/Gallery.tsx:103-110 | a non-numeric word is stored under `word`, and the store ends with `errorTimes` 0, no items, the new word and page 1. The calls are logged in the order store word, clear errors, clear items, set word, scroll to top, then exactly one request for page 1 of the new word; the search option is unchanged |
| `GalleryPage.SearchIgnoresLog` | src/pages/Gallery.tsx:97-111 | what a search does to store and storage depends only on store, storage and filter, not on earlier calls |
| `GalleryPage.Gallery.OnSearchOptionsChange` | src/pages/Gallery.tsx:113-116 | the new page state is `OptionsChangeStep` of the old |
| `GalleryPage.OptionsChangePersists` | src/pages/Gallery.tsx:113-116 | a filter change becomes the page's option and is persisted; reading the storage at the next start gives the same filter back. Nothing else changes: the store, the other storage keys and the earlier log stay as they were, and the one `Storage.set` is the only call logged |
| `GalleryPage.Gallery.OnKeywordClick` | src/pages/Gallery.tsx:118-127 | the new page state is `KeywordClickStep` of the old |
| `GalleryPage.KeywordClickProtocol` | src/pages/Gallery.tsx:118-127 | clicking a keyword sets the word, then sets the input to `''` for `"ranking"` and to the word otherwise, then refreshes, and only then persists the word; the search option is unchanged |
| `GalleryPage.KeywordClickAgreesWithSearch` | src/pages/Gallery.tsx:97-127 | for a non-empty non-numeric word, clicking it as a keyword and searching for it leave identical store, storage and request count |
| `GalleryPage.SearchWordSurvivesRestart` | src/pages/Gallery.tsx:104-154 | a searched word is written to storage, so a later mount with any `entry` other than `ranking` (or none) seeds the store with that word |
| `GalleryPage.Gallery.Mount` | src/pages/Gallery.tsx:129-161 | the new page state is `MountStep` of the old |
| `GalleryPage.InputEvents` | src/pages/Gallery.tsx:139-142 | the mount starts with one `setValue` of the stored word exactly when a word other than `"ranking"` is stored, and with no call otherwise |
| `GalleryPage.MountInputRequestsNothing` | src/pages/Gallery.tsx:139-142 | showing the stored word in the input appends exactly one `setValue` call when a word other than `"ranking"` is stored and nothing otherwise; store, storage and search option are unchanged and nothing is requested |
| `GalleryPage.MountFromIllustSearchesAgain` | src/pages/Gallery.tsx:144-146 | coming back from a detail view, mounting ends in the store and storage of `onSearch(gallery.word)`, with `fromIllust` cleared and the page's option kept. Its log is that of the search run after the input is set, followed by clearing the flag, so it requests one page exactly when the word is non-empty and not numeric |
| `GalleryPage.MountFreshSeedsWord` | src/pages/Gallery.tsx:148-159 | the word becomes `"ranking"` (and is persisted) for `entry=ranking`, otherwise the cached word. Page 1 is requested iff the store has no items. Tags are requested, as the last call, iff the store has none. The log is exactly the earlier log, the seeding calls, then those requests; the rest of the store is given by `MountFreshStore` |
| `GalleryPage.MountFreshStore` | src/pages/Gallery.tsx:148-159 | a fresh mount changes the store only in its word and, for an empty store, in `page` (back to 1) and `xRestrict` (copied from the page's option, as `fetchSource(true)` does); `errorTimes`, `tags`, `fromIllust`, `isFetchingTags` and the option itself are kept |
| `GalleryPage.MountFreshLog` | src/pages/Gallery.tsx:148-159 | a fresh mount logs the seeding calls, then `fetchSource(true)`'s request for an empty store, then the tag request when there are no tags, and nothing else |
| `GalleryPage.InitialFetchLog` | src/pages/Gallery.tsx:156-159 | after seeding, the only calls are a page-1 request for the seeded word when there are no items and a tag request when there are no tags, in that order |
| `GalleryPage.SeedWordRequestsNothing` | src/pages/Gallery.tsx:149-155 | seeding changes only the store's word (`"ranking"` for `entry=ranking`, else the cached word), persists `"ranking"` in the first case, and appends exactly `setWord` (then `Storage.set('word', 'ranking')` for `entry=ranking`) to the log, so no page or tag request |
| `GalleryPage.MountFreshExtendsLog` | src/pages/Gallery.tsx:148-159 | the fresh mount only appends calls to the log, and for an empty store its page-1 request for the seeded word comes after every call logged before the mount |
| `GalleryPage.MountSeedsWord` | src/pages/Gallery.tsx:139-160 | the same for the whole mount effect when `fromIllust` is not set: the seeded word is never empty and the items are left alone. The log is exactly the earlier calls, the input's `setValue` for a stored word, the seeding calls, the page-1 request for an empty store and the tag request when there are no tags; the rest of the store is given by `MountStore` |
| `GalleryPage.MountStore` | src/pages/Gallery.tsx:139-160 | the same store and option for the whole mount effect when `fromIllust` is not set |
| `GalleryPage.MountLog` | src/pages/Gallery.tsx:139-160 | without `fromIllust`, the mount's log is the earlier log, the input update, the seeding calls and the initial fetches, in that order |
| `GalleryPage.MountInputThenFresh` | src/pages/Gallery.tsx:139-159 | a fresh mount's log begins with the earlier calls and the input's `setValue` for a stored word other than `"ranking"`, and the page-1 request for an empty store comes after both |
| `GalleryPage.EntryFor` | src/pages/Gallery.tsx:190-213 | a keyword's entry is highlighted exactly when its tag equals the word; the ranking entry and only it carries the "Ranking" caption |
| `GalleryPage.ListedIff` | src/pages/Gallery.tsx:164-178 | the scanned keyword list contains the word iff the word is `"ranking"` or one of the store's tags |
| `GalleryPage.KeywordDrawer` | src/pages/Gallery.tsx:163-194 | a spinner iff tags are being fetched. Otherwise `"ranking"` comes first, then every tag in order, and an entry is highlighted iff its tag is the word. The extra current-word entry shows exactly when the word is no tag, is not `"ranking"` and is not blank |
| `GalleryPage.Gallery.RenderKeywords` | src/pages/Gallery.tsx:163-194 | the list built with `unshift` and the `found` scan loop is exactly `KeywordDrawer` of the store |
| `GalleryPage.CurrentWordMarkedOnce` | src/pages/Gallery.tsx:180-194 | for a non-blank word the drawer marks it one way only: either the extra entry shows and no keyword is highlighted, or some keyword is highlighted and no extra entry shows |
| `ImageViewer.Next` | src/components/ImageBox.tsx:125 | for an index inside the list, `onNext` stays inside and advances by one, wrapping from the last image to the first; an empty list or NaN gives NaN |
| `ImageViewer.Prev` | src/components/ImageBox.tsx:123-124 | for an index inside the list, `onPrev` stays inside and goes back by one, wrapping from the first image to the last; an empty list or NaN gives NaN |
| `ImageViewer.PrevUndoesNext` | src/components/ImageBox.tsx:123-125 | `onPrev` after `onNext` restores any valid index |
| `ImageViewer.NextUndoesPrev` | src/components/ImageBox.tsx:123-125 | `onNext` after `onPrev` restores any valid index |
| `ImageViewer.RunStaysInRange` | src/components/ImageBox.tsx:121-128 | every sequence of steps keeps a valid index in `[0, length)` |
| `ImageViewer.NextTimesAdvances` | src/components/ImageBox.tsx:125 | `k` presses of next, for `k` up to the length, advance a valid index by `k`, wrapping once past the end |
| `ImageViewer.FullCycleReturns` | src/components/ImageBox.tsx:125 | pressing next `length` times returns to the starting index |
| `ImageViewer.KeyMove` | src/components/ImageBox.tsx:127-128 | up and left step back; down and right step forward |
| `ImageViewer.Zones` | src/components/ImageBox.tsx:141-147 | the prev and next click zones exist iff the device is not mobile |
| `ImageViewer.Shows` | src/components/ImageBox.tsx:130-132 | the viewer draws iff the index is an integer inside the list and the URL there is non-empty, so an empty list, an out-of-range index, NaN and `''` draw nothing |
| `ImageViewer.PositionLabel` | src/components/ImageBox.tsx:149-153 | the chip reads `index + 1` over the list length, and lies in `[1, length]` whenever drawn |
| `ImageViewer.ImageBox.constructor` | src/components/ImageBox.tsx:121 | the starting index is taken from the caller without clamping |
| `ImageViewer.ImageBox.OnPrev` | src/components/ImageBox.tsx:123-124 | the index becomes `Prev` of the old index |
| `ImageViewer.ImageBox.OnNext` | src/components/ImageBox.tsx:125 | the index becomes `Next` of the old index |
| `ImageViewer.ImageBox.OnKeyPress` | src/components/ImageBox.tsx:127-128 | up and left run `onPrev`, down and right run `onNext`, whether or not anything is drawn |
| `ImageViewer.ImageBox.OnZoneClick` | src/components/ImageBox.tsx:141-147 | a zone click steps the index on a desktop device and does nothing on a mobile one |
| `ImageViewer.ImageBox.Render` | src/components/ImageBox.tsx:130-155 | nothing is drawn unless the guard holds. A drawn frame shows the image at the index, the chip `index + 1` over the length (so within `[1, length]`), and off mobile exactly a "previous" zone then a "next" zone, none on mobile |

## Left out

- What a completed fetch does to the store is not modelled. This covers the store's items, page, `errorTimes`, `isFetching`, `isError`, `errorMsg` and `isFetchingTags`. The gallery store's code is not part of this model. `gallery.fetchSource()` and `gallery.fetchTags()` are only recorded as requests.
- The effects of the store's setters are assumed, because the store's code is not part of this model. `clearSource` empties the items and resets the page to 1, `clearErrorTimes` zeroes the counter, and `setWord` and `setFromIllust` set their field. The page's own `fetchSource(true)` sets the page to 1 anyway, so no stated property depends on `clearSource`'s page reset.
- The numeric-word test `!isNaN(parseFloat(word)) && isFinite(Number(word))` is floating-point parsing. It is the class's `isNumeric` parameter, left uninterpreted.
- The infinite-scroll trigger is not modelled. Its distance threshold, its `isLoading` gate and `hasMore` live in the layout container, which is not part of this model. So the claim that no two page fetches overlap is not stated.
- The race in which a late response for an old word is appended after a search switch is not modelled, because responses are not modelled.
- React's `setSearchOptions` takes effect at the next render. The model applies it at once, as if the page re-rendered between two events.
- Storage holds only strings and booleans. A non-string value under `word` is treated as absent. A truthy non-boolean under `x_restrict` is read as `true`.
- Rendering is out: the JSX, styles, translated messages, the loading and error blocks of the main area, the "Refresh page" button (`window.location.reload`), the drawer toggle, `shouldLogin` (always false), `api.proxyImage`, the image loader and the viewer's `onClose` callback. Mobile detection is a boolean input.
- The optional-chained refs `layoutRef?.current?.toTop()` (src/pages/Gallery.tsx:86, 108) and `inputRef.current?.setValue(...)` (src/pages/Gallery.tsx:121, 123, 141) are taken to be mounted, so the scroll and the input update are always logged. The case of a missing ref, in which the call is skipped, is not modelled.
- The viewer's index is an integer or NaN. A fractional starting index is not modelled.
- `JsRuntime.Rem`: does not state that the result is congruent to the dividend modulo `n`; only its sign, its bounds and its agreement with the mathematical remainder on non-negative dividends are stated, which is all the viewer's properties need.
- `ImageViewer.NextTimesAdvances`: stated only for up to one full round (`k <= length`), which is what `FullCycleReturns` needs, not for every `k` modulo the length.
- `src/stores/AuthStore.tsx` is left out. It only wraps a foreign authentication call.
- `src/pages/NotFound.tsx` is left out. It renders a static message.
