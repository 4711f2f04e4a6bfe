# A model of a portfolio site's view logic

The site is a single-page React portfolio. Most of its code is presentation,
but a few pieces carry real logic, and this project models those pieces in
Dafny and proves what they promise:

- **The top-level view controller** (`App.tsx`). It holds the current view
  (`HOME`, `BLOG_POST`, `ALL_PROJECTS`, `ALL_BLOGS`) and the selected post.
  Five handlers change them. A conditional decides which page `main` shows,
  and the preloader hides everything until it completes.
- **The post renderer** (`components/BlogPostView.tsx`). It is a line-by-line
  parser for an ad hoc markdown-like format:
  - code fences, found on the trimmed line;
  - three heading levels, found on the untrimmed line;
  - blank lines, which are skipped;
  - paragraphs for everything else.
- **The command palette** (`components/CommandPalette.tsx`):
  - ten fixed commands;
  - a case-insensitive search over their labels and sub-labels;
  - a selection index moved with the arrow keys modulo the number of
    matches;
  - Ctrl/Cmd+K to toggle and Escape to close;
  - the view change each command asks for.
- **The blog listings.** The archive search (`components/AllBlogsView.tsx`)
  matches on the title or a tag. The home section
  (`components/BlogSection.tsx`) shows the first three posts.
- **The navigation bar** (`components/Navigation.tsx`):
  - from any view other than home, a click first requests home and then
    scrolls;
  - a scroll threshold sets the compact style;
  - the palette button fakes the palette's shortcut.
- **The guestbook.** The mock store (`services/guestbookService.ts`) seeds an
  empty slot on the first fetch and prepends on add. The section
  (`components/Guestbook.tsx`) has a guarded form, its own local copy of each
  submitted entry, and the `loading` and `status` flags.

## How the model is built

There is one module per source file:

- `App`, `BlogPostView`, `CommandPalette`, `AllBlogsView`, `BlogSection`,
  `Navigation`, `GuestbookService` and `Guestbook`;
- `Types`, for the records and enumerations of `types.ts`;
- `BlogData`, for the three published posts of `data/blogPosts.ts`;
- two helper modules: `Text`, for the JavaScript string operations used, and
  `Seqs`, for `filter` and `slice`.

The model takes two forms:

- **Pure code** becomes functions, with lemmas about them. This covers the
  page dispatch, the searches, the palette's filter and the effects of a nav
  click.
- **Code that updates state** gets two layers:
  - a step function over a datatype of the whole state, which is the
    specification and which the lemmas are about;
  - a class with the source's fields, whose methods are proved to leave
    exactly the state that step function gives.

  The classes are `App.App`, `CommandPalette.Palette`, `Navigation.NavBar`,
  `GuestbookService.GuestbookStore` and `Guestbook.GuestbookView`.

`renderContent` is a loop that mutates its variables, so the model keeps the
loop:

- `BlogPostView.RenderContent` walks the lines with a `while` loop.
- `BlogPostView.RenderLine` is the `forEach` callback.
- The loop is proved equal to `BlogPostView.Render`, a fold of
  `BlogPostView.Feed` over the lines. The renderer's lemmas are about that
  fold.

The clock (`Date.now()`) and the coin behind the accent colour
(`Math.random() > 0.5`) are parameters. Timers are explicit steps.

The guestbook's events are ordered only as far as the program orders them
(`Guestbook.Enabled`): the mount effect runs once, its fetch returns while it
is pending, a click needs an enabled button, and a submit's `addEntry` returns
only after the fetch has. The fetch is issued at mount, before any submit, and
both calls wait the same `MOCK_DELAY` of 800 ms, so the fetch's timer always
fires first (`Guestbook.FetchReturnsFirst`). Submits may still interleave with
the pending fetch and with each other. Each awaiting submit keeps the list its
closure captured, so:

- A submit made while the fetch is pending returns to its stale list, and the
  fetched entries are lost (`Guestbook.SubmitDuringFetchDropsFetched`).
- An earlier submit's reset timer can re-enable the button while a submit is
  awaiting (`Guestbook.ResetWhileAwaiting`); a second submit made then
  drops the first's local copy (`Guestbook.OverlappingSubmitsKeepLastCopy`).

### One direction only

The post page always has a post, but the converse does not hold: a post can
stay selected after the app leaves `BLOG_POST`.

- `App.RunKeepsPostShown` proves the first direction for every sequence of
  handler calls that avoids `changeView('BLOG_POST')`.
- `App.ReactAllKeepsPostShown` proves it for every sequence of callbacks the
  components can make, since none of them reaches that call.
- `App.SelectedPostOutlivesItsView` proves that the converse fails: with a
  post open, the palette's `archive` command shows the project archive and
  keeps the post selected.

## Model

| member | source | states |
|---|---|---|
| Text.ToLower | components/AllBlogsView.tsx:16 | definition of `toLowerCase` (ASCII letters); see `AllBlogsView.LinuxSearch` |
| Text.StartsWith | components/BlogPostView.tsx:75 | definition of `startsWith`; see `BlogPostView.HeaderLevels` |
| Text.Includes | components/AllBlogsView.tsx:16 | definition of `includes`: some position holds the query; see `AllBlogsView.EmptyQueryKeepsAll` |
| Text.IndexOf | components/BlogPostView.tsx:76 | `indexOf`, the search behind `replace` with a string pattern: a result is an occurrence with none before it; no result means the pattern occurs nowhere |
| Text.RemoveFirst | components/BlogPostView.tsx:76-84 | `replace(pat, '')` removes only the first occurrence: the string is unchanged if there is none, and otherwise it is the text before the first occurrence followed by the text after it |
| Text.RemoveFirstOfPrefix | components/BlogPostView.tsx:75-84 | on a line that starts with the marker, `replace` strips exactly that leading marker |
| Text.Trim | components/BlogPostView.tsx:51 | `trim()` leaves no whitespace at either end and never lengthens the string; see `Text.TrimIsSlice` |
| Text.TrimIsSlice | components/BlogPostView.tsx:51 | the trimmed string is a slice of the line with only whitespace outside it, so exactly the leading and trailing whitespace runs are removed |
| Text.TrimEmptyIffBlank | components/BlogPostView.tsx:89 | `line.trim() === ''` holds exactly when every character of the line is whitespace |
| Text.Split | components/BlogPostView.tsx:43 | `split('\n')` always yields at least one piece, and no piece holds the separator |
| Text.JoinSplit | components/BlogPostView.tsx:43 | joining the pieces of a split with the separator gives back the original string |
| Text.SplitJoin | components/BlogPostView.tsx:43 | splitting a join of separator-free pieces gives back the pieces |
| Seqs.Filter | components/AllBlogsView.tsx:15 | `filter` never lengthens its input, and keeps only elements that satisfy the predicate |
| Seqs.FilterMembership | components/AllBlogsView.tsx:15-18 | an element is in the result exactly when it is in the input and satisfies the predicate |
| Seqs.FilterIsSubsequence | components/AllBlogsView.tsx:15 | the result keeps the input's order: it is a subsequence of the input |
| Seqs.FilterCount | components/AllBlogsView.tsx:15 | a kept element appears as often as in the input, and one that fails the predicate never appears |
| Seqs.FilterAll | components/CommandPalette.tsx:103 | a predicate that holds for every element keeps the whole input |
| Seqs.Take | components/BlogSection.tsx:15 | `slice(0, n)` has `min(n, len(s))` elements, each the same as at its position in `s` |
| BlogPostView.Classify | components/BlogPostView.tsx:74-92 | definition of what a line outside code emits; see `BlogPostView.HeaderLevels`, `BlogPostView.BlankLineSkipped`, `BlogPostView.ParagraphKeepsLine` |
| BlogPostView.Feed | components/BlogPostView.tsx:50-92 | definition of one run of the callback on the loop state; see `BlogPostView.FencedBlock`, `BlogPostView.CodeLinesBuffered` |
| BlogPostView.Run | components/BlogPostView.tsx:49 | definition of the `forEach` over the lines as a fold; see `BlogPostView.RunAppend`, `BlogPostView.OutputFollowsLines` |
| BlogPostView.Render | components/BlogPostView.tsx:42-96 | definition of `renderContent`; see `BlogPostView.RenderContent`, `BlogPostView.RenderLines` |
| BlogPostView.RenderLine | components/BlogPostView.tsx:50-92 | one run of the `forEach` callback is one step `Feed` of the fold; a block that is emitted takes the next key |
| BlogPostView.RenderContent | components/BlogPostView.tsx:42-96 | the loop over the split lines yields exactly `Render(content)`, and the keys are `0, 1, …` (one per element, all distinct) |
| BlogPostView.RunAppend | components/BlogPostView.tsx:49 | the lines are handled in order: feeding `a + b` is feeding `a` and then `b` |
| BlogPostView.HeaderLevels | components/BlogPostView.tsx:75-86 | `# x`, `## x` and `### x` are headings at levels 2, 3 and 4, holding `x` with the marker removed |
| BlogPostView.FourMarkersIsParagraph | components/BlogPostView.tsx:75-92 | `#### x` is no heading: it is a paragraph holding the whole line |
| BlogPostView.TightMarkerIsParagraph | components/BlogPostView.tsx:75-92 | `#` followed directly by text is no heading: it is a paragraph holding the whole line |
| BlogPostView.IndentedMarkerIsParagraph | components/BlogPostView.tsx:75-92 | headings are found on the untrimmed line, so ` # x` is a paragraph |
| BlogPostView.BlankLineSkipped | components/BlogPostView.tsx:89 | outside code, a whitespace-only line emits nothing |
| BlogPostView.ParagraphKeepsLine | components/BlogPostView.tsx:92 | outside code, any other non-blank line is one paragraph holding the line unchanged |
| BlogPostView.CodeLinesBuffered | components/BlogPostView.tsx:69-72 | inside a code block, every line that is not a fence is buffered verbatim (blank and `#` lines too), and nothing is emitted |
| BlogPostView.FencedBlock | components/BlogPostView.tsx:51-67 | an opening fence, fence-free lines and a closing fence emit exactly one code block: the lines joined by `'\n'`. The buffer then empties, the fence lines are never emitted, and whatever follows the backticks is ignored |
| BlogPostView.UnclosedFenceDropped | components/BlogPostView.tsx:51-72 | after a fence that is never closed, the output does not change: the buffered lines are dropped |
| BlogPostView.OutputFollowsLines | components/BlogPostView.tsx:49-93 | each line emits at most one block, and blocks once emitted stay in place, in order |
| BlogPostView.BufferEmptyOutsideCode | components/BlogPostView.tsx:61-62 | whenever the renderer is outside a code block, its buffer is empty |
| BlogPostView.NoFenceIsOutline | components/BlogPostView.tsx:74-92 | with no fences, rendering maps each line on its own: heading, paragraph or nothing |
| BlogPostView.RenderLines | components/BlogPostView.tsx:43-49 | rendering a body given as lines joined by `'\n'` is feeding exactly those lines |
| BlogPostView.View | components/BlogPostView.tsx:15 | a null post renders nothing; a post renders its tags, title, date, reading time and excerpt as they are, and its rendered content |
| CommandPalette.CommandIdsDistinct | components/CommandPalette.tsx:43-98 | there are ten commands, with pairwise distinct ids |
| CommandPalette.CommandTargets | components/CommandPalette.tsx:43-98 | every view change a command asks for is `HOME`, `ALL_PROJECTS` or `ALL_BLOGS` |
| CommandPalette.Filtered | components/CommandPalette.tsx:102-108 | definition of `filteredCommands`; see `CommandPalette.FilteredSpec` |
| CommandPalette.FilteredSpec | components/CommandPalette.tsx:102-108 | the empty query lists every command in order; any other query lists exactly the commands whose lowercased label or sub-label contains the lowercased query; the list is always in definition order |
| CommandPalette.Rem | components/CommandPalette.tsx:117-120 | JavaScript's `%`: NaN for a zero divisor, and for a non-negative dividend a value in `[0, abs(n))` |
| CommandPalette.RemIsTruncated | components/CommandPalette.tsx:117-120 | for a non-zero divisor the remainder is smaller than the divisor in magnitude, zero or of the dividend's sign, and differs from the dividend by a multiple of the divisor |
| CommandPalette.Down | components/CommandPalette.tsx:117 | definition of ArrowDown's `(prev + 1) % n`; see `CommandPalette.ArrowsStayInRange` |
| CommandPalette.Up | components/CommandPalette.tsx:120 | definition of ArrowUp's `(prev - 1 + n) % n`; see `CommandPalette.ArrowsStayInRange` |
| CommandPalette.ArrowsStayInRange | components/CommandPalette.tsx:115-120 | for `0 <= i < n`, ArrowDown gives `i + 1` and wraps `n - 1` to `0`; ArrowUp gives `i - 1` and wraps `0` to `n - 1` |
| CommandPalette.ArrowsInverse | components/CommandPalette.tsx:117-120 | ArrowDown then ArrowUp, and ArrowUp then ArrowDown, restore the index |
| CommandPalette.ArrowsOnEmptyList | components/CommandPalette.tsx:117-123 | with no matches, either arrow leaves the index NaN, which selects nothing |
| CommandPalette.OnQueryChange | components/CommandPalette.tsx:159 | definition of the search box's `onChange`; see `CommandPalette.InputKeepsIndexValid` |
| CommandPalette.OnHover | components/CommandPalette.tsx:180 | definition of a row's `onMouseEnter`; see `CommandPalette.InputKeepsIndexValid` |
| CommandPalette.OnItemClick | components/CommandPalette.tsx:179 | definition of a row's `onClick`; see `CommandPalette.ClickedActionIsCommand`, `App.PaletteClickKeepsPostShown` |
| CommandPalette.OnBackdropClick | components/CommandPalette.tsx:142 | definition of the backdrop's `onClick`; see `CommandPalette.InputKeepsIndexValid` |
| CommandPalette.OnKeyDown | components/CommandPalette.tsx:26-131 | definition of both keydown listeners on one event; see `CommandPalette.ToggleResets`, `CommandPalette.EnterRunsSelection`, `CommandPalette.KeyDownKeepsIndexValid` |
| CommandPalette.ToggleResets | components/CommandPalette.tsx:28-33 | Ctrl/Cmd+K flips `isOpen` and resets the query to `''` and the index to 0, in any state |
| CommandPalette.EscapeCloses | components/CommandPalette.tsx:34-36 | Escape always closes and changes nothing else |
| CommandPalette.ClosedIgnoresNavigation | components/CommandPalette.tsx:113 | while the palette is closed, ArrowDown, ArrowUp and Enter change nothing and run nothing |
| CommandPalette.EnterRunsSelection | components/CommandPalette.tsx:121-126 | Enter with an index that selects a match runs that command and closes; otherwise it does nothing |
| CommandPalette.KeyDownKeepsIndexValid | components/CommandPalette.tsx:26-131 | every keydown keeps the invariant that, when anything matches, the index selects a match |
| CommandPalette.InputKeepsIndexValid | components/CommandPalette.tsx:142-180 | editing the query (index back to 0), hovering or clicking a row, and clicking the backdrop all keep that invariant |
| CommandPalette.FiredActionIsCommand | components/CommandPalette.tsx:121-126 | whatever a keydown runs is the action of one of the ten commands |
| CommandPalette.ClickedActionIsCommand | components/CommandPalette.tsx:179 | whatever a click on a row runs is the action of one of the ten commands |
| CommandPalette.Palette.constructor | components/CommandPalette.tsx:21-23 | the palette starts closed, with an empty query and index 0 |
| CommandPalette.Palette.KeyDown | components/CommandPalette.tsx:26-131 | both window listeners together update the fields exactly as `OnKeyDown`, and keep the index invariant |
| CommandPalette.Palette.QueryChanged | components/CommandPalette.tsx:159 | the new query is stored and the index reset to 0 |
| CommandPalette.Palette.Hovered | components/CommandPalette.tsx:180 | hovering row `k` sets the index to `k` |
| CommandPalette.Palette.ItemClicked | components/CommandPalette.tsx:179 | clicking row `k` runs that row's command and closes |
| CommandPalette.Palette.BackdropClicked | components/CommandPalette.tsx:142 | the backdrop closes the palette |
| AllBlogsView.PostMatches | components/AllBlogsView.tsx:16-17 | definition of the search predicate; see `AllBlogsView.FilteredPostsSpec` |
| AllBlogsView.FilteredPosts | components/AllBlogsView.tsx:15-18 | definition of `filteredPosts`; see `AllBlogsView.FilteredPostsSpec`, `AllBlogsView.LinuxSearch` |
| AllBlogsView.FilteredPostsSpec | components/AllBlogsView.tsx:15-18 | the archive lists the posts in order, and a post appears exactly when its lowercased title or some lowercased tag contains the lowercased query |
| AllBlogsView.EmptyQueryKeepsAll | components/AllBlogsView.tsx:15-18 | the empty query lists every post |
| AllBlogsView.MatchIgnoresExcerptAndContent | components/AllBlogsView.tsx:15-18 | changing a post's excerpt or content never changes whether it matches |
| AllBlogsView.ExcerptOnlyMatchExcluded | components/AllBlogsView.tsx:15-18 | a post whose title and tags miss the query is not listed |
| AllBlogsView.ListingFor | components/AllBlogsView.tsx:60-100 | the placeholder is shown exactly when nothing matches; otherwise there is one row per matching post |
| AllBlogsView.RowClicked | components/AllBlogsView.tsx:67 | clicking a row calls `onReadPost` with exactly that row's post |
| AllBlogsView.RowClickedMatches | components/AllBlogsView.tsx:60-67 | the post a row opens is one of the posts, and it matches the query |
| AllBlogsView.ReactPostNotLinux | components/AllBlogsView.tsx:15-18 | the post with id "1" does not match `LINUX` |
| AllBlogsView.TaggedLinux | components/AllBlogsView.tsx:17 | a post tagged `Linux` matches the query `LINUX` |
| AllBlogsView.LinuxSearch | components/AllBlogsView.tsx:15-18 | with the published posts, `LINUX` lists the posts with ids "2" and "4", in that order |
| BlogSection.RecentPosts | components/BlogSection.tsx:15 | definition of `recentPosts`; see `BlogSection.RecentPostsArePrefix` |
| BlogSection.RecentPostsArePrefix | components/BlogSection.tsx:15 | the cards are the first `min(3, len(posts))` posts: a prefix in the same order, and all posts when there are at most three |
| BlogSection.AllPublishedPostsShown | components/BlogSection.tsx:15 | each of the three published posts gets a card |
| BlogSection.CardClicked | components/BlogSection.tsx:48 | clicking card `k` (one of the first three) calls `onReadPost` with exactly post `k` |
| BlogSection.ArchiveClicked | components/BlogSection.tsx:32 | the archive button (and its narrow-screen twin at line 82) calls `onViewAll` exactly when that prop was given |
| Navigation.ScrollTo | components/Navigation.tsx:23-35 | off the home view, a click makes exactly two effects: it requests home, then schedules the scroll after 100 ms; on the home view it makes exactly one, the immediate scroll |
| Navigation.NavTargetsDistinct | components/Navigation.tsx:51-56 | the six buttons target six distinct section ids |
| Navigation.PaletteButtonToggles | components/Navigation.tsx:37-41 | the palette button's synthetic meta+`k` keydown toggles the palette just as the shortcut does |
| Navigation.IsScrolled | components/Navigation.tsx:17 | definition of the threshold test; see `Navigation.NavBar.OnScroll` |
| Navigation.NavBar.constructor | components/Navigation.tsx:13 | the bar starts unscrolled |
| Navigation.NavBar.OnScroll | components/Navigation.tsx:15-18 | after a scroll event, `isScrolled` holds exactly when `scrollY > 50` |
| GuestbookService.Seed | services/guestbookService.ts:15-18 | definition of the seed; see `GuestbookService.SeedEntries` |
| GuestbookService.Add | services/guestbookService.ts:29-39 | definition of `addEntry`'s write; see `GuestbookService.AddPrepends`, `GuestbookService.AddToAbsentSlot` |
| GuestbookService.SeedEntries | services/guestbookService.ts:15-18 | the seed has two entries: ids 1 and 2, Charles and Sarah, `#ff00ff` and `#00ffff`, created 86400000 ms and 172800000 ms before now |
| GuestbookService.Fetch | services/guestbookService.ts:10-20 | a stored collection is returned unchanged, with nothing written; an absent slot is seeded; in both cases the slot ends up holding what was returned |
| GuestbookService.FetchIsStable | services/guestbookService.ts:10-20 | with no add in between, a second fetch at any time writes nothing and returns the same collection |
| GuestbookService.NewEntry | services/guestbookService.ts:30-36 | the new entry holds the name and message verbatim, with `id` and creation time both `now`, and signature `#b8bb26` or `#cc241d` |
| GuestbookService.AddPrepends | services/guestbookService.ts:29-39 | an add stores the new entry first, followed by the old entries unchanged, so the collection grows by one |
| GuestbookService.AddToAbsentSlot | services/guestbookService.ts:29 | an add over an absent slot does not seed: the store holds the new entry alone |
| GuestbookService.NewestIdLargest | services/guestbookService.ts:30-39 | when the clock is past every stored id, the added entry, at the head of the store, has an id larger than every other stored entry's |
| GuestbookService.SameMillisecondSameId | services/guestbookService.ts:30-39 | two adds at the same clock reading store two entries with equal ids |
| GuestbookService.FetchAfterAdd | services/guestbookService.ts:38-39 | a fetch after an add returns the added entry in front of the previous entries |
| GuestbookService.FetchThenThreeAdds | services/guestbookService.ts:15-39 | a first fetch and then adds of A, B and C leave C, B, A, Charles, Sarah |
| GuestbookService.GuestbookStore.constructor | services/guestbookService.ts:10 | the store starts with whatever the slot holds |
| GuestbookService.GuestbookStore.FetchEntries | services/guestbookService.ts:7-24 | `fetchEntries` leaves the slot and returns the entries exactly as `Fetch` does |
| GuestbookService.GuestbookStore.AddEntry | services/guestbookService.ts:26-43 | `addEntry` returns the new entry, writes it in front of the stored ones, and the returned entry is the head of the store |
| Guestbook.Mounted | components/Guestbook.tsx:13-14 | definition of the mount effect before the fetch, on a section not yet mounted; see `Guestbook.MountThenFetch`, `Guestbook.StepsKeepValid` |
| Guestbook.Fetched | components/Guestbook.tsx:15-18 | definition of the fetch's continuation, while the fetch is pending; see `Guestbook.MountThenFetch`, `Guestbook.SubmitDuringFetchDropsFetched` |
| Guestbook.NameEdited | components/Guestbook.tsx:69 | definition of the name field's `onChange`; see `Guestbook.GuestbookView.NameChanged`, `Guestbook.StepsKeepValid` |
| Guestbook.MessageEdited | components/Guestbook.tsx:78 | definition of the message field's `onChange`; see `Guestbook.GuestbookView.MessageChanged`, `Guestbook.StepsKeepValid` |
| Guestbook.StatusReset | components/Guestbook.tsx:44 | definition of the two-second reset timer; see `Guestbook.ResetWhileAwaiting`, `Guestbook.StepsKeepValid` |
| Guestbook.Submitted | components/Guestbook.tsx:21-28 | definition of `handleSubmit` up to the `await`; see `Guestbook.EmptyFieldRejected`, `Guestbook.ValidSubmitCallsOnce` |
| Guestbook.SubmitResolved | components/Guestbook.tsx:28-41 | definition of `handleSubmit` after the `await`, once the fetch has returned; see `Guestbook.SubmitRoundTrip`, `Guestbook.FetchReturnsFirst` |
| Guestbook.Enabled | components/Guestbook.tsx:13-44 | definition of when each event can happen; see `Guestbook.FetchReturnsFirst`, `Guestbook.StepsKeepValid` |
| Guestbook.MountThenFetch | components/Guestbook.tsx:13-19 | mounting sets `loading` to LOADING; the completed fetch replaces the entries and sets SUCCESS |
| Guestbook.EmptyFieldRejected | components/Guestbook.tsx:23 | an empty name or message changes nothing and calls nothing |
| Guestbook.WhitespaceAccepted | components/Guestbook.tsx:23 | a non-empty name and message made only of whitespace pass the guard, though both trim to nothing |
| Guestbook.ValidSubmitCallsOnce | components/Guestbook.tsx:25-28 | a valid submit sets `status` to LOADING and makes exactly one `addEntry` call, with the form's name and message, changing nothing else: entries, form and `loading` stay |
| Guestbook.SubmitRoundTrip | components/Guestbook.tsx:28-41 | once the call returns, the list is the local copy (typed name and message, `#ffffff`) in front of the old entries; the form is empty and `status` is SUCCESS |
| Guestbook.StepsKeepValid | components/Guestbook.tsx:8-44 | every event, when enabled, keeps the invariant: neither flag is ever ERROR, and a disabled button means a call is awaiting |
| Guestbook.ResetWhileAwaiting | components/Guestbook.tsx:44 | the converse fails: an earlier submit's reset timer can re-enable the button while a new call is awaiting |
| Guestbook.OverlappingSubmitsKeepLastCopy | components/Guestbook.tsx:39 | a submit made through that re-enabled button captured the old list, so once both calls return the first local copy is gone |
| Guestbook.SubmitDuringFetchDropsFetched | components/Guestbook.tsx:15-39 | a submit made while the mount fetch is pending captured the list as it was, so its return writes the local copy over the fetched entries; with the button enabled, that order is a possible run |
| Guestbook.NoFetchAfterSuccess | components/Guestbook.tsx:13-18 | the effect fetches once per mount: after its return, no later event is a fetch return |
| Guestbook.FetchReturnsFirst | services/guestbookService.ts:5-41 | in every possible run, no return of the mount fetch comes after the return of a submit's `addEntry` |
| Guestbook.GuestbookView.constructor | components/Guestbook.tsx:8-11 | the section starts with no entries, both flags IDLE and an empty form, not yet mounted, and meets the invariant `Guestbook.Valid` |
| Guestbook.GuestbookView.Mount | components/Guestbook.tsx:13-14 | the mount effect, run once on a section not yet mounted, sets `loading` to LOADING |
| Guestbook.GuestbookView.FetchReturned | components/Guestbook.tsx:15-18 | the pending fetch reads or seeds the store as `Fetch` does; the section shows its result and sets SUCCESS |
| Guestbook.GuestbookView.NameChanged | components/Guestbook.tsx:69 | typing in the name field replaces the name only |
| Guestbook.GuestbookView.MessageChanged | components/Guestbook.tsx:78 | typing in the message field replaces the message only |
| Guestbook.GuestbookView.Submit | components/Guestbook.tsx:21-28 | the submit handler up to the `await`, reachable only while the button is enabled: it calls `addEntry` exactly when the guard passes |
| Guestbook.GuestbookView.AddEntryReturned | components/Guestbook.tsx:28-41 | once the fetch has returned, the oldest call stores its entry in front of the store and the section resumes: local copy, form reset, SUCCESS |
| Guestbook.GuestbookView.StatusTimerFired | components/Guestbook.tsx:44 | the timer sets `status` back to IDLE |
| App.Step | App.tsx:40-66 | definition of a call of one of the five handlers; see `App.StepKeepsPostShown` |
| App.OpenPost | App.tsx:40-44 | definition of `handleOpenPost`; see `App.OpenPostShowsIt` |
| App.GoHome | App.tsx:46-50 | definition of `handleGoHome`; see `App.GoHomeResets` |
| App.ViewAllProjects | App.tsx:52-55 | definition of `handleViewAllProjects`; see `App.ArchivesKeepPost` |
| App.ViewAllBlogs | App.tsx:57-60 | definition of `handleViewAllBlogs`; see `App.ArchivesKeepPost`, `App.ArchiveButtonShowsBlogs` |
| App.ViewChanged | App.tsx:63-66 | definition of `changeView`; see `App.ChangeViewClearsOnlyOnHome` |
| App.OpenPostShowsIt | App.tsx:40-44 | opening a post shows `BLOG_POST` with that post, from any state |
| App.GoHomeResets | App.tsx:46-50 | going home gives `HOME` with no post, from any state; a second time changes nothing |
| App.ArchivesKeepPost | App.tsx:52-60 | the two archive handlers set their view and leave the selected post as it was |
| App.ChangeViewClearsOnlyOnHome | App.tsx:63-66 | `changeView(v)` shows `v`; a selected post is cleared exactly when `v` is `HOME` |
| App.StepKeepsPostShown | App.tsx:40-66 | every handler except `changeView('BLOG_POST')` keeps the invariant that the single-post view has a post |
| App.RunKeepsPostShown | App.tsx:40-66 | any sequence of handler calls without `changeView('BLOG_POST')` keeps the invariant |
| App.ChangeViewToPostBreaksPostShown | App.tsx:63-66 | `changeView('BLOG_POST')` from the initial state breaks the invariant |
| App.SelectedPostOutlivesItsView | App.tsx:63-66 | the converse is not kept: with a post open, the palette's `archive` command shows the project archive and leaves the post selected |
| App.PageFor | App.tsx:81-100 | definition of the page dispatch; see `App.DispatchIsExclusive`, `App.PostPageShowsSelected` |
| App.DispatchIsExclusive | App.tsx:81-100 | each view gets exactly one page, and every view but `HOME`, `BLOG_POST` and `ALL_PROJECTS` gets the blog archive |
| App.PostPageShowsSelected | App.tsx:94-95 | under the invariant, the post page renders the selected post and never hits the null guard |
| App.Wired | App.tsx:77-99 | definition of which handler each component callback reaches; see `App.CallbackKeepsPostShown` |
| App.ArchiveButtonShowsBlogs | App.tsx:90 | the blog section's archive button, with `onViewAll` wired to `handleViewAllBlogs`, fires and shows `ALL_BLOGS`, keeping the selected post |
| App.PaletteNeverOpensPostView | App.tsx:78 | no palette command reaches `changeView('BLOG_POST')` |
| App.CallbackKeepsPostShown | App.tsx:77-99 | as the handlers are wired into the components, every callback keeps the invariant |
| App.ReactAllKeepsPostShown | App.tsx:77-99 | every sequence of callbacks the components can make keeps the invariant |
| App.PaletteClickKeepsPostShown | App.tsx:78 | whatever a click on a palette row runs keeps the invariant |
| App.PaletteKeyKeepsPostShown | App.tsx:78 | whatever a palette keydown runs keeps the invariant |
| App.NavClickReachesSection | App.tsx:77 | from any view, a nav click lands on the home page, which has the target section |
| App.PaletteSectionsExist | App.tsx:83-92 | every section a palette command scrolls to is on the home page, and the command goes home first |
| App.App.MainContent | App.tsx:75-100 | `main` is shown exactly when the preloader is gone, and then holds the dispatched page |
| App.App.constructor | App.tsx:25-28 | the app starts loading, on `HOME`, with no post, and meets the invariant `App.PostShown` |
| App.App.PreloaderComplete | App.tsx:71 | the preloader's completion clears `isLoading` and changes nothing else |
| App.App.HandleOpenPost | App.tsx:40-44 | `handleOpenPost` updates the fields as `OpenPost` |
| App.App.HandleGoHome | App.tsx:46-50 | `handleGoHome` updates the fields as `GoHome` |
| App.App.HandleViewAllProjects | App.tsx:52-55 | `handleViewAllProjects` updates the fields as `ViewAllProjects` |
| App.App.HandleViewAllBlogs | App.tsx:57-60 | `handleViewAllBlogs` updates the fields as `ViewAllBlogs` |
| App.App.ChangeView | App.tsx:63-66 | `changeView` updates the fields as `ViewChanged` |

## Left out

- Timers and Promises are left out:
  - `MOCK_DELAY` (services/guestbookService.ts:5), the guestbook's two-second status reset, and the 100 ms scroll delays become explicit steps or values;
  - `fetchEntries` and `addEntry` run synchronously, at the moment their timer fires.
- Storage is an `Option<seq<GuestbookEntry>>` slot rather than a `localStorage` string with JSON:
  - the empty string, which both service calls treat as absent, is folded into `None`;
  - a corrupt blob (for which `JSON.parse` would throw) and a failed write are not modelled.
- Dates are integer milliseconds, not ISO strings. `toLocaleDateString` is not modelled.
- `toLowerCase` and `trim` follow their ASCII reading:
  - lower-casing maps `A`–`Z` only;
  - trimming removes space, tab, line feed, carriage return, vertical tab and form feed.
- Browser effects are named effects or actions, not performed:
  - `window.scrollTo` and `scrollIntoView`;
  - `window.open`, the clipboard, `alert` and `navigator.share`;
  - the dispatch of a synthetic `KeyboardEvent`.
- The palette's scroll after `changeView` is recorded in each command, but its effect is not modelled.
- Purely presentational components are not part of this model:
  - `Hero.tsx`, `About.tsx`, `Story.tsx`, `Experience.tsx`, `TechStack.tsx`, `ProjectGallery.tsx`, `Lab.tsx` and `Contact.tsx`;
  - `AllProjectsView.tsx`, `Preloader.tsx` and `Footer.tsx`;
  - all animation props and CSS classes.
  - These components appear only through the section ids the home page holds and the callbacks App wires into them.
- The posts of `data/blogPosts.ts` keep their ids, titles, excerpts, dates, reading times and tags as published. Each body is cut down to its first heading, since the renderer's lemmas are stated for all inputs.
- React keys are the numbers `0, 1, …`. The `code-`, `h1-`, `h2-`, `h3-` and `p-` prefixes are part of the strings, so the keys stay distinct either way.
- `scrollY` is a `real`, not a floating-point value.
- GuestbookService.NewEntry: the id and the creation time come from one clock reading, while the source reads the clock twice (`Date.now()` and `new Date()`, also for the local copy at components/Guestbook.tsx:32-35), so the two can differ by a millisecond. Ids are `Date.now()`, so they are unique and increasing only if the clock moves forward between adds. Two adds in the same millisecond get equal ids (`GuestbookService.SameMillisecondSameId`); the model does not promise uniqueness.
- Guestbook.Enabled: the status reset timer may fire at any point, not only two seconds after a submit returns, so the model allows more orders of that one event than the program.
- Guestbook.GuestbookView: the model covers one mount of the guestbook section. Leaving `HOME` unmounts it; coming back mounts a fresh component with the initial state and a new fetch. A submit still awaiting at unmount resolves into the unmounted component, whose state updates React drops; only its store write remains.
