# Five pieces of an early Chromium browser, modelled in Dafny

This project models five sequential pieces of the Chromium browser and
proves properties of each:

- **Tab strip model** (`TabStrip`, `tab_strip_model.dfy`). The strip of
  tabs in a browser window is a sequence of tab records plus a selected
  index. Each tab is a contents id with the flags pinned, app, needs-reload
  (a phantom tab), opener and group. The class `TabStripModel` holds the
  sequence, the selection and the closing-all flag, and its methods insert,
  detach, move, pin and select tabs. Each method's new state is tied to a
  function of the old one, and lemmas about those functions prove the
  invariants:
  - mini tabs (pinned or app) form a prefix of the strip;
  - every contents id appears once;
  - the selection stays on the tab it was on whenever the source promises
    that.
- **History URL provider** (`HistoryUrl`, `history_url_provider.dfy`).
  This is the list and string logic of the autocomplete provider that
  suggests URLs from history:
  - the ranking comparator and the relevance scores;
  - sorting and de-duplication;
  - culling poor matches and redirects;
  - ensuring that what the user typed is present;
  - choosing the best prefix;
  - trimming `http:`;
  - restoring trailing slashes;
  - removing a deleted URL from the current results.
- **JSON reader** (`JsonReader`, `json_reader.dfy`). This is a
  recursive-descent reader from text to a value (null, boolean, integer,
  double, string, list or dictionary) or to an error with a kind, a line
  and a column. It covers the number grammar of section 2.4 of RFC 4627,
  string escapes (section 2.5 plus the `\x` and `\v` extensions), optional
  trailing commas, the list-or-dictionary root rule, a nesting limit of
  100, error codes and positions. The inputs of the reader's unit tests
  are checked as lemmas in `json_reader_vectors.dfy` (`JsonReaderVectors`)
  and `json_reader_cases.dfy` (`JsonReaderCases`). In that file, each
  `<Case>Step<n>` lemma is an intermediate evaluation step of one case.
- **Sync setup wizard** (`SyncSetup`, `sync_setup_flow.dfy`). This covers:
  - the table of allowed wizard transitions and how `Advance` moves the
    current state;
  - what closing the dialog reports to the sync service;
  - reading the sign-in reply and the data-type reply, both JSON texts read
    by the JSON reader model.
- **Cancelable request provider** (`CancelableRequest`,
  `cancelable_request.dfy`). A provider hands out handles and keeps a map
  from each handle to its pending request. A request leaves the map when it
  completes or is canceled. Shutting the provider down cancels everything
  still pending. The notifications sent to consumers are kept as a log.

The JSON reader's implementation (`base/json/json_reader.cc`) is not part
of this model. The reader is modelled on the behaviour its unit tests fix,
and the rows below for `JsonReader` cite the test lines that pin each part.

## Model

| member | source | states |
|---|---|---|
| TabStrip.FirstNonMini | chrome/browser/tabs/tab_strip_model.cc:509-516 | The result is within the strip, every tab before it is mini, and the tab at it (if any) is not |
| TabStrip.Constrained | chrome/browser/tabs/tab_strip_model.cc:518-521 | A mini tab's index lands in [0, first non-mini] and any other tab's in [first non-mini, count]; an index already in its range is kept |
| TabStrip.NewTabData | chrome/browser/tabs/tab_strip_model.cc:149-166 | The new record has the given contents and flags; it records the selected contents as its opener when asked to inherit the group or the opener, and as its group only for the group |
| TabStrip.ForgetOpeners | chrome/browser/tabs/tab_strip_model.cc:417-423 | Forgetting openers keeps the number of tabs |
| TabStrip.MiniExactlyBeforeFirstNonMini | chrome/browser/tabs/tab_strip_model.cc:509-516 | On a strip whose mini tabs form a prefix, a tab is mini exactly when it lies before the first non-mini index |
| TabStrip.MiniPrefixFromSplit | chrome/browser/tabs/tab_strip_model.cc:509-516 | A strip whose tabs are mini exactly below k has its mini tabs as a prefix, and its first non-mini index is k |
| TabStrip.InsertAtIndex | chrome/browser/tabs/tab_strip_model.cc:169 | Inserting grows the strip by one, puts the tab at the index and keeps every other tab in its old order |
| TabStrip.RemoveAtIndex | chrome/browser/tabs/tab_strip_model.cc:223-224 | Erasing shrinks the strip by one and shifts the later tabs down by one |
| TabStrip.MoveToIndex | chrome/browser/tabs/tab_strip_model.cc:1038-1040 | A move puts the tab at its target, leaves tabs outside the moved span in place and shifts the span by one |
| TabStrip.MoveIsPermutation | chrome/browser/tabs/tab_strip_model.cc:1036-1049 | A move is a permutation with the moved tab at the target, and the others keep their relative order |
| TabStrip.MoveKeepsSelectedTab | chrome/browser/tabs/tab_strip_model.cc:1042-1049 | Without select-after-move, the adjusted selection names the tab that was selected |
| TabStrip.MoveKeepsMiniPrefix | chrome/browser/tabs/tab_strip_model.cc:252-267 | A move that stays on its side of the mini boundary keeps the mini prefix and the boundary |
| TabStrip.InsertKeepsMiniPrefix | chrome/browser/tabs/tab_strip_model.cc:135-169 | Inserting at the constrained index keeps the mini tabs a prefix |
| TabStrip.InsertKeepsSelectedTab | chrome/browser/tabs/tab_strip_model.cc:171-175 | Bumping the selection when inserting at or before it keeps the same tab selected |
| TabStrip.RemoveKeepsMiniPrefix | chrome/browser/tabs/tab_strip_model.cc:223-224 | Erasing a tab keeps the mini tabs a prefix |
| TabStrip.InsertKeepsDistinct | chrome/browser/tabs/tab_strip_model.cc:169 | Inserting new contents keeps every contents id unique |
| TabStrip.RemoveKeepsDistinct | chrome/browser/tabs/tab_strip_model.cc:223-224 | Erasing keeps every contents id unique |
| TabStrip.MoveKeepsDistinct | chrome/browser/tabs/tab_strip_model.cc:1036-1049 | Moving keeps every contents id unique |
| TabStrip.ForgetOpenersKeeps | chrome/browser/tabs/tab_strip_model.cc:417-423 | Forgetting openers keeps the mini prefix, its boundary, the unique ids and which tabs are phantom |
| TabStrip.InsertedStripValid | chrome/browser/tabs/tab_strip_model.cc:132-170 | After an insert the strip has one more tab, the mini prefix and unique ids hold, and the new tab sits at the constrained index, pinned exactly when it is an app or asked to be |
| TabStrip.InsertedStrip | chrome/browser/tabs/tab_strip_model.cc:132-170 | The strip gains exactly one tab, and the tab at the constrained index holds the new contents, pinned when it is an app or asked to be, with its app flag |
| TabStrip.InsertedKeepsSelectedTab | chrome/browser/tabs/tab_strip_model.cc:169-175 | A background insert keeps the selection on the tab that was selected |
| TabStrip.WithPinnedKeepsDistinct | chrome/browser/tabs/tab_strip_model.cc:448-485 | Changing a pinned flag keeps every contents id unique |
| TabStrip.PinAppKeepsMiniPrefix | chrome/browser/tabs/tab_strip_model.cc:453-461 | Changing the pinned flag of an app tab keeps the mini prefix, since an app tab is mini either way |
| TabStrip.PinMoveKeepsMiniPrefix | chrome/browser/tabs/tab_strip_model.cc:465-469 | Pinning a non-mini tab and moving it to the first non-mini slot keeps the mini prefix and grows it by one |
| TabStrip.UnpinMoveKeepsMiniPrefix | chrome/browser/tabs/tab_strip_model.cc:465-472 | Unpinning a pinned non-app tab and moving it to just before the boundary keeps the mini prefix and shrinks it by one |
| TabStrip.PinInPlaceKeepsMiniPrefix | chrome/browser/tabs/tab_strip_model.cc:465-481 | A tab already at the boundary is pinned or unpinned in place and the boundary moves past it |
| TabStrip.PinnedStripValid | chrome/browser/tabs/tab_strip_model.cc:448-485 | Pinning or unpinning keeps the mini prefix, the unique ids and the number of tabs |
| TabStrip.PinnedStrip | chrome/browser/tabs/tab_strip_model.cc:448-485 | Pinning keeps the number of tabs, and pinning an app tab changes no other tab and moves nothing |
| TabStrip.PinnedTabLandsOnBoundary | chrome/browser/tabs/tab_strip_model.cc:462-473 | A non-app tab being pinned lands on the first non-mini slot, one being unpinned just before it, and the boundary moves accordingly |
| TabStrip.PinnedKeepsSelectedTab | chrome/browser/tabs/tab_strip_model.cc:448-485 | After pinning, the adjusted selection names the contents that were selected |
| TabStrip.StepIndexAdvances | chrome/browser/tabs/tab_strip_model.cc:963-968 | One cyclic step stays in range and moves one step further from where the walk started |
| TabStrip.StepForwardWraps | chrome/browser/tabs/tab_strip_model.cc:985 | A forward step wraps from the last index to 0 |
| TabStrip.TabStripModel.constructor | chrome/browser/tabs/tab_strip_model.cc:59-73 | A new strip is empty, has no selection and is not closing all |
| TabStrip.TabStripModel.HasNonPhantomTabs | chrome/browser/tabs/tab_strip_model.cc:101-107 | True exactly when some tab is not phantom |
| TabStrip.TabStripModel.ContainsIndex | chrome/browser/tabs/tab_strip_model.cc:121-123 | True exactly for the indices of tabs in the strip |
| TabStrip.TabStripModel.IsMiniTab | chrome/browser/tabs/tab_strip_model.cc:487-493 | A tab is mini (pinned or an app); in a strip whose mini tabs come first, exactly the tabs before the first non-mini tab are |
| TabStrip.TabStripModel.IsPhantomTab | chrome/browser/tabs/tab_strip_model.cc:500-503 | A phantom tab is pinned and hence mini |
| TabStrip.TabStripModel.IndexOfFirstNonMiniTab | chrome/browser/tabs/tab_strip_model.cc:509-516 | The scan returns the first index whose tab is not mini |
| TabStrip.TabStripModel.ConstrainInsertionIndex | chrome/browser/tabs/tab_strip_model.cc:518-521 | Returns the clamped index described by Constrained |
| TabStrip.TabStripModel.ForgetAllOpeners | chrome/browser/tabs/tab_strip_model.cc:417-423 | Clears every tab's opener and changes nothing else |
| TabStrip.TabStripModel.ChangeSelectedContentsFrom | chrome/browser/tabs/tab_strip_model.cc:937-955 | Selects the index unless it already shows the old contents |
| TabStrip.TabStripModel.SelectTabContentsAt | chrome/browser/tabs/tab_strip_model.cc:247-250 | Selecting an index in range makes it the selection and keeps the strip valid |
| TabStrip.TabStripModel.InsertTabContentsAt | chrome/browser/tabs/tab_strip_model.cc:132-182 | The strip becomes the inserted strip, the new tab is selected when in the foreground and otherwise the old tab stays selected, and closing-all is cleared |
| TabStrip.TabStripModel.IndexOfNextNonPhantomTab | chrome/browser/tabs/tab_strip_model.cc:972-990 | From the clamped start, returns the first tab in cyclic order that is not phantom and not the ignored index; if there is none it returns the clamped start; a missing index stays missing |
| TabStrip.TabStripModel.DetachTabContentsAt | chrome/browser/tabs/tab_strip_model.cc:214-245 | On an empty strip nothing changes; otherwise exactly the tab at the index is removed and returned, closing-all is set when no live tab remains, a selection after the index moves down by one to stay on the same tab, and when the selected tab itself goes the new selection is the first live tab cyclically from the clamped order-controller choice |
| TabStrip.TabStripModel.MoveTabContentsAtImpl | chrome/browser/tabs/tab_strip_model.cc:1036-1053 | The strip is moved and the selection is adjusted, or follows the moved tab when asked |
| TabStrip.TabStripModel.MoveTabContentsAt | chrome/browser/tabs/tab_strip_model.cc:252-267 | Nothing changes for a move onto itself or across the mini boundary; otherwise the move is applied, and without select-after-move the same tab stays selected |
| TabStrip.TabStripModel.SetTabPinned | chrome/browser/tabs/tab_strip_model.cc:448-485 | The strip becomes the pinned strip, a no-op when the flag is already as asked; the selection follows the tab it was on |
| TabStrip.TabStripModel.GetIndicesClosedByCommand | chrome/browser/tabs/tab_strip_model.cc:772-789 | Other commands give nothing; otherwise the indices strictly decrease and are exactly the non-mini tabs other than the index, only those after it for close-to-right |
| TabStrip.TabStripModel.SelectRelativeTab | chrome/browser/tabs/tab_strip_model.cc:957-970 | The new selection is in range and is the first non-phantom tab cyclically after (or before) the old one; it stays put when every other tab is phantom |
| TabStrip.TabStripModel.GetIndexOfNextTabContentsOpenedBy | chrome/browser/tabs/tab_strip_model.cc:339-356 | Returns the first matching non-phantom tab after the start, else the nearest one before it, else none |
| TabStrip.TabStripModel.GetIndexOfFirstTabContentsOpenedBy | chrome/browser/tabs/tab_strip_model.cc:358-372 | Returns the first non-phantom tab before the start opened by the opener, else none |
| TabStrip.TabStripModel.GetIndexOfLastTabContentsOpenedBy | chrome/browser/tabs/tab_strip_model.cc:374-393 | Returns the last non-phantom tab after the start opened by the opener, else none |
| HistoryUrl.LexGreaterIrreflexive | chrome/browser/autocomplete/history_url_provider.cc:46-75 | No rank key is ranked above itself |
| HistoryUrl.LexGreaterTransitive | chrome/browser/autocomplete/history_url_provider.cc:46-75 | Ranking rank keys lexicographically is transitive |
| HistoryUrl.LexGreaterAsymmetric | chrome/browser/autocomplete/history_url_provider.cc:46-75 | Ranking rank keys lexicographically is asymmetric |
| HistoryUrl.CompareIsLexicographic | chrome/browser/autocomplete/history_url_provider.cc:46-75 | The comparator ranks a above b exactly when a's key is lexicographically greater; the key is (typed at all, innermost match, typed count, host-only typed once, visit count, last visit) |
| HistoryUrl.CompareIsStrict | chrome/browser/autocomplete/history_url_provider.cc:46-75 | The comparator is irreflexive and asymmetric |
| HistoryUrl.CompareIsTransitive | chrome/browser/autocomplete/history_url_provider.cc:46-75 | The comparator is transitive |
| HistoryUrl.TypedRanksAboveUntyped | chrome/browser/autocomplete/history_url_provider.cc:46-49 | Any typed URL ranks above any never-typed URL |
| HistoryUrl.CompareHistoryMatch | chrome/browser/autocomplete/history_url_provider.cc:46-75 | No match ranks above itself; a typed URL ranks above a never-typed one, and a never-typed URL ranks above only never-typed ones |
| HistoryUrl.CalculateRelevance | chrome/browser/autocomplete/history_url_provider.cc:561-574 | Every score is at least 900; the inline and what-you-typed scores are at least 1200; a normal match among the first three hundred scores below 1200 |
| HistoryUrl.RelevanceRanks | chrome/browser/autocomplete/history_url_provider.cc:561-574 | Inline autocomplete scores 1400 and what-you-typed 1200; other matches score below 1200 while fewer than 300, and later matches score higher |
| HistoryUrl.Find | chrome/browser/autocomplete/history_url_provider.cc:532 | Returns the first position where the pattern occurs, or none when it does not occur |
| HistoryUrl.SlashRun | chrome/browser/autocomplete/history_url_provider.cc:536-539 | Counts the slashes at a position, at most the given maximum, stopping at the first other character |
| HistoryUrl.HttpPrefixShape | chrome/browser/autocomplete/history_url_provider.cc:532-540 | The erased span is exactly `http:` followed by the counted slashes |
| HistoryUrl.TrimHttpPrefix | chrome/browser/autocomplete/history_url_provider.cc:528-542 | Without the scheme, the URL is kept and 0 returned; otherwise `http:` and at most two following slashes are erased, and their length is returned only when the scheme was at position 0 |
| HistoryUrl.TrailingSlashes | chrome/browser/autocomplete/history_url_provider.cc:512-518 | Counts the run of `/` or `\` at the end of the text |
| HistoryUrl.AppendSlashes | chrome/browser/autocomplete/history_url_provider.cc:519-520 | Appending k slashes adds k to the trailing count |
| HistoryUrl.CutSlashes | chrome/browser/autocomplete/history_url_provider.cc:521-522 | Cutting trailing slashes lowers the trailing count by as many |
| HistoryUrl.FixupTrailingSlashes | chrome/browser/autocomplete/history_url_provider.cc:512-522 | The output ends with exactly as many slashes as the input, and only its trailing slashes change |
| HistoryUrl.FindUrl | chrome/browser/autocomplete/history_url_provider.cc:653-661 | Returns the first match with the URL, or none when none has it |
| HistoryUrl.WithoutUrl | chrome/browser/autocomplete/history_url_provider.cc:793-801 | Dropping a URL never lengthens the list |
| HistoryUrl.WithoutUrlMembers | chrome/browser/autocomplete/history_url_provider.cc:793-801 | The survivors are exactly the entries with other URLs |
| HistoryUrl.WithoutUrlSnoc | chrome/browser/autocomplete/history_url_provider.cc:793-801 | Dropping a URL from a list extended by one entry extends the result by that entry unless it has the URL |
| HistoryUrl.DedupInventsNothing | chrome/browser/autocomplete/history_url_provider.cc:793-801 | De-duplication keeps only entries of the input |
| HistoryUrl.DedupKeepsEveryUrl | chrome/browser/autocomplete/history_url_provider.cc:793-801 | Every URL of the input survives de-duplication |
| HistoryUrl.DedupDistinctUrls | chrome/browser/autocomplete/history_url_provider.cc:793-801 | After de-duplication no two entries share a URL |
| HistoryUrl.Unseen | chrome/browser/autocomplete/history_url_provider.cc:793-801 | Dropping the seen URLs never lengthens the list |
| HistoryUrl.WithoutUrlOfUnseen | chrome/browser/autocomplete/history_url_provider.cc:793-801 | Dropping one more URL is the same as having seen it |
| HistoryUrl.DedupOfUnseen | chrome/browser/autocomplete/history_url_provider.cc:793-801 | De-duplicating the unseen entries keeps the first entry of each unseen URL |
| HistoryUrl.UnseenOfNothing | chrome/browser/autocomplete/history_url_provider.cc:793-801 | With nothing seen, nothing is dropped |
| HistoryUrl.DedupKeepsFirstOfEachUrl | chrome/browser/autocomplete/history_url_provider.cc:793-801 | De-duplication keeps the earliest entry of each URL in the original order |
| HistoryUrl.Dedup | chrome/browser/autocomplete/history_url_provider.cc:793-801 | De-duplication never lengthens the list and empties only an empty list |
| HistoryUrl.InsertByRank | chrome/browser/autocomplete/history_url_provider.cc:771-772 | Inserting by rank adds exactly the one entry |
| HistoryUrl.InsertByRankSorted | chrome/browser/autocomplete/history_url_provider.cc:771-772 | Inserting by rank into a sorted list keeps it sorted |
| HistoryUrl.SortByRank | chrome/browser/autocomplete/history_url_provider.cc:771-772 | The result is sorted by the comparator and is a permutation of the input |
| HistoryUrl.EraseLaterOfUrl | chrome/browser/autocomplete/history_url_provider.cc:794-800 | Erases every entry after position i with the URL at i and keeps the rest in order |
| HistoryUrl.RemoveLaterDuplicates | chrome/browser/autocomplete/history_url_provider.cc:793-801 | The loop's result is the de-duplicated list, so the lemmas on Dedup apply to it |
| HistoryUrl.SortMatches | chrome/browser/autocomplete/history_url_provider.cc:770-802 | The result is the de-duplication of some sorted permutation of the input |
| HistoryUrl.WithoutPoor | chrome/browser/autocomplete/history_url_provider.cc:804-816 | Culling never lengthens the list |
| HistoryUrl.IsPoor | chrome/browser/autocomplete/history_url_provider.cc:808-810 | A match typed or visited more than its limit, or visited at or after the recent threshold, is not poor |
| HistoryUrl.WithoutPoorSnoc | chrome/browser/autocomplete/history_url_provider.cc:804-816 | Culling a list extended by one entry extends the result by that entry unless it is poor |
| HistoryUrl.WithoutPoorRemovesExactlyPoor | chrome/browser/autocomplete/history_url_provider.cc:804-816 | Culling removes every poor entry and keeps every other entry with its multiplicity |
| HistoryUrl.CullPoorMatches | chrome/browser/autocomplete/history_url_provider.cc:804-816 | The loop's result is the culled list, in the original order |
| HistoryUrl.WithMatchPresentHasUrl | chrome/browser/autocomplete/history_url_provider.cc:646-669 | The list grows by at most one, keeps every entry and then has the URL; with promote it is first; when the URL was already there the entries are the same |
| HistoryUrl.WithMatchPresent | chrome/browser/autocomplete/history_url_provider.cc:646-669 | The list is never empty afterwards, and when promoting, its first entry has the ensured URL |
| HistoryUrl.RotateToFrontKeeps | chrome/browser/autocomplete/history_url_provider.cc:657-658 | Rotating an entry to the front keeps the same entries |
| HistoryUrl.EnsureMatchPresent | chrome/browser/autocomplete/history_url_provider.cc:646-669 | The result is the found entry rotated to the front (promote) or the list unchanged; otherwise a new entry pushed to the front (promote) or back |
| HistoryUrl.FindAnyUrl | chrome/browser/autocomplete/history_url_provider.cc:854-859 | A found position has a URL from the remove list |
| HistoryUrl.FindAnyUrlIsFirst | chrome/browser/autocomplete/history_url_provider.cc:854-859 | The search finds the first such position: any position with a URL to remove is at or after it |
| HistoryUrl.WithoutAny | chrome/browser/autocomplete/history_url_provider.cc:861-873 | Dropping the URLs to remove never lengthens the list |
| HistoryUrl.WithoutAnyAppend | chrome/browser/autocomplete/history_url_provider.cc:861-873 | Dropping distributes over concatenation |
| HistoryUrl.WithoutAnyMembers | chrome/browser/autocomplete/history_url_provider.cc:861-873 | Survivors come from the list and have no URL to remove |
| HistoryUrl.FindAnyUrlInPrefix | chrome/browser/autocomplete/history_url_provider.cc:854-859 | Searching a prefix finds the same position when it lies inside the prefix, and none otherwise |
| HistoryUrl.RemoveSubsequentOfPrefix | chrome/browser/autocomplete/history_url_provider.cc:848-875 | Removing from a prefix keeps everything up to the first hit and drops the later hits within the prefix |
| HistoryUrl.RemoveSubsequent | chrome/browser/autocomplete/history_url_provider.cc:848-875 | The list never grows; with no URL to remove it is unchanged, otherwise everything up to and including the first such entry is kept in place |
| HistoryUrl.WithoutAnySplitAt | chrome/browser/autocomplete/history_url_provider.cc:861-873 | Dropping from a slice splits at any point |
| HistoryUrl.RemoveSubsequentShrinksTail | chrome/browser/autocomplete/history_url_provider.cc:821-842 | When the source entry has a URL to remove, the entries after it shrink or stay, so the redirect loop ends |
| HistoryUrl.WithoutAnyGrow | chrome/browser/autocomplete/history_url_provider.cc:861-873 | Extending the slice by one adds that entry unless its URL is removed |
| HistoryUrl.EraseStep | chrome/browser/autocomplete/history_url_provider.cc:861-873 | One step of the erase loop keeps the loop's shape: the prefix, the filtered middle and the untouched tail |
| HistoryUrl.WithoutAnyMonotone | chrome/browser/autocomplete/history_url_provider.cc:861-873 | Filtering a longer slice gives at least as many survivors |
| HistoryUrl.ScanNextStep | chrome/browser/autocomplete/history_url_provider.cc:868-872 | The returned index drops by one for each erased entry before it |
| HistoryUrl.FindFirstOf | chrome/browser/autocomplete/history_url_provider.cc:854-859 | The scan returns the first entry whose URL is in the remove list, or the length when there is none |
| HistoryUrl.RemoveSubsequentMatchesOf | chrome/browser/autocomplete/history_url_provider.cc:848-875 | Keeps the first entry whose URL is in the list and erases the later ones; the returned index is where the entry after the source now sits, lowered by one for each erased entry before it |
| HistoryUrl.FinishRemoveSubsequent | chrome/browser/autocomplete/history_url_provider.cc:848-875 | At the end of the erase loop the list and the index are as RemoveSubsequentMatchesOf promises |
| HistoryUrl.CullRedirects | chrome/browser/autocomplete/history_url_provider.cc:818-846 | At most the maximum number of results, all taken from the input, with the first result kept |
| HistoryUrl.GetPrefixes | chrome/browser/autocomplete/history_url_provider.cc:545-558 | The prefixes include the empty catch-all, and each has at most two components |
| HistoryUrl.BestPrefix | chrome/browser/autocomplete/history_url_provider.cc:752-768 | None exactly when no prefix matches; otherwise a matching prefix with the most components, the first of those |
| HistoryUrl.GetPrefixesCatchAll | chrome/browser/autocomplete/history_url_provider.cc:545-558 | Some prefix always matches text that starts with the suffix, so BestPrefix finds one |
| HistoryUrl.FindDestination | chrome/browser/autocomplete/history_url_provider.cc:160-162 | Returns the first result for the URL, or none |
| HistoryUrl.AfterDeleteEffect | chrome/browser/autocomplete/history_url_provider.cc:159-175 | A deleted URL's first result is erased; the what-you-typed result instead stays, undeletable and without a description; every other result is kept |
| HistoryUrl.AfterDelete | chrome/browser/autocomplete/history_url_provider.cc:159-175 | At most one result disappears, and only when some result for the URL is not the what-you-typed result |
| HistoryUrl.HistoryUrlProvider.constructor | chrome/browser/autocomplete/history_url_provider.cc:116-121 | A new provider has no results and is done |
| HistoryUrl.HistoryUrlProvider.DeleteMatch | chrome/browser/autocomplete/history_url_provider.cc:147-179 | When the delete applies, the results become the list after the delete; otherwise they are unchanged |
| SyncSetup.NextStates | chrome/browser/sync/sync_setup_flow.cc:393-467 | From each state, only the states the transition table allows can follow |
| SyncSetup.ShouldAdvance | chrome/browser/sync/sync_setup_flow.cc:393-413 | The fatal error state is always reachable; a done state can only go to the fatal error; done is entered only from choosing data types; only sign-in and the fatal error may be re-entered |
| SyncSetup.Next | chrome/browser/sync/sync_setup_flow.cc:415-467 | The state changes only when the table allows it, and becomes the target, or choosing data types after a successful sign-in |
| SyncSetup.DoneOnlyLeadsToFatalError | chrome/browser/sync/sync_setup_flow.cc:393-413 | Once done, the state changes exactly when the target is the fatal error |
| SyncSetup.SignInOutcome | chrome/browser/sync/sync_setup_flow.cc:426-433 | A successful sign-in ends in sign-in success when that is the end state, and in choosing data types otherwise |
| SyncSetup.Run | chrome/browser/sync/sync_setup_flow.cc:415-467 | A run of advances gives one state per target |
| SyncSetup.DoneOnlyAfterChoosingDataTypes | chrome/browser/sync/sync_setup_flow.cc:393-413 | A run that starts short of done and ends done starts at or passes through choosing data types |
| SyncSetup.NextToDoneComesFromChoosing | chrome/browser/sync/sync_setup_flow.cc:393-413 | A single advance into done comes from choosing data types, or from done |
| SyncSetup.CloseCallsMeaning | chrome/browser/sync/sync_setup_flow.cc:286-320 | Closing marks setup completed exactly when done, records a cancel event exactly before done, never both, and always ends with the user-cancelled call |
| SyncSetup.CloseCalls | chrome/browser/sync/sync_setup_flow.cc:286-320 | Closing makes one or two calls on the service, the last always reporting that the dialog was closed |
| SyncSetup.SyncSetupFlow.constructor | chrome/browser/sync/sync_setup_flow.cc:235-250 | A new flow starts in its start state with its end state and no service calls |
| SyncSetup.SyncSetupFlow.Advance | chrome/browser/sync/sync_setup_flow.cc:415-467 | The current state becomes the next state of the table; no service call is made |
| SyncSetup.SyncSetupFlow.OnDialogClosed | chrome/browser/sync/sync_setup_flow.cc:286-320 | The service calls made on close are appended and the state is kept |
| SyncSetup.GetAuthData | chrome/browser/sync/sync_setup_flow.cc:46-59 | Succeeds exactly when the reply is a dictionary with string user, pass and captcha, and returns those strings |
| SyncSetup.GetString | chrome/browser/sync/sync_setup_flow.cc:53-55 | A string is found exactly when the key is present with a string value, and it is that value |
| SyncSetup.GetBoolean | chrome/browser/sync/sync_setup_flow.cc:68-75 | A boolean is found exactly when the key is present with a boolean value, and it is that value |
| SyncSetup.ReadDictionary | chrome/browser/sync/sync_setup_flow.cc:48-52 | A dictionary is returned exactly when the reply reads as a dictionary, and it is that dictionary |
| SyncSetup.ReadCheckboxes | chrome/browser/sync/sync_setup_flow.cc:71-121 | The type set only grows, and every type it gains is the type of one of the checkbox keys |
| SyncSetup.GetDataTypeChoiceData | chrome/browser/sync/sync_setup_flow.cc:61-122 | The caller's type set never shrinks; success implies the everything flag was read; when that flag was not read the call fails with the set unchanged |
| SyncSetup.ReadCheckboxesMeaning | chrome/browser/sync/sync_setup_flow.cc:71-119 | The flags read succeed exactly when all are booleans; types are only added, only for true flags, and on success every true flag's type is added |
| SyncSetup.GetDataTypeChoiceDataMeaning | chrome/browser/sync/sync_setup_flow.cc:61-122 | Succeeds exactly when the reply is a dictionary whose keep-everything flag and eight type flags are booleans; on success the set gains exactly the true-flagged types |
| SyncSetup.ChoiceNeverAddsSessions | chrome/browser/sync/sync_setup_flow.cc:61-122 | No flag adds the sessions type |
| CancelableRequest.Request.constructor | chrome/browser/cancelable_request.cc:89-94 | A new request has handle 0, no provider, no consumer, and is not canceled |
| CancelableRequest.Request.Init | chrome/browser/cancelable_request.cc:99-106 | Only a fresh request may be set up; it records exactly the given provider, handle and consumer |
| CancelableRequest.Provider.constructor | chrome/browser/cancelable_request.cc:7-8 | The first handle is 1 and nothing is pending |
| CancelableRequest.Provider.AddRequest | chrome/browser/cancelable_request.cc:21-37 | Returns the next handle (never 0, never pending), maps it to the request, bumps the next handle, tells the consumer and sets the request up |
| CancelableRequest.Provider.CancelRequest | chrome/browser/cancelable_request.cc:39-42 | Cancels the pending request under the handle as CancelRequestLocked does; an unknown handle changes nothing |
| CancelableRequest.Provider.CancelRequestLocked | chrome/browser/cancelable_request.cc:44-55 | A pending handle is erased, its request is marked canceled and its consumer told; an unknown handle changes nothing; only that one request is touched |
| CancelableRequest.Provider.RequestCompleted | chrome/browser/cancelable_request.cc:57-78 | A pending handle is erased without being canceled and its consumer told, and a pending request is never canceled; an unknown handle changes nothing |
| CancelableRequest.Provider.CancelAllPending | chrome/browser/cancelable_request.cc:10-19 | Ends with nothing pending and every request that was pending canceled; the log grows by exactly the removal reports for the pending handles walked in increasing order, each to that request's own consumer |
| CancelableRequest.Provider.CancelLowest | chrome/browser/cancelable_request.cc:17-18 | One turn of the shutdown loop cancels the lowest pending handle and keeps the shutdown invariant: remaining requests and all consumers unchanged, removed ones canceled, log plus reports still due constant |
| CancelableRequest.Ascending | chrome/browser/cancelable_request.cc:17-18 | The walk of a handle set from `begin()` has one entry per handle, each from the set |
| CancelableRequest.AscendingFromLowest | chrome/browser/cancelable_request.cc:17-18 | The walk starts at the lowest handle and goes on with the walk of the rest |
| CancelableRequest.AscendingSorted | chrome/browser/cancelable_request.cc:17-18 | The walk is strictly increasing |
| CancelableRequest.AscendingCovers | chrome/browser/cancelable_request.cc:17-18 | The walk visits every handle of the set |
| CancelableRequest.Reports | chrome/browser/cancelable_request.cc:52 | The reports for a run of handles are, position by position, the removal of that handle sent to its consumer |
| CancelableRequest.WalkReportsEachOnce | chrome/browser/cancelable_request.cc:10-19 | The reports of the shutdown hold one removal per pending handle and nothing else, handles strictly increasing, each sent to that handle's consumer |
| CancelableRequest.HasLowest | chrome/browser/cancelable_request.cc:17-18 | A non-empty set of handles has a lowest one, where `begin()` points |
| JsonReader.LineCommentEnd | base/json/json_reader_unittest.cc:38-40 | A line comment ends within the text |
| JsonReader.BlockCommentEnd | base/json/json_reader_unittest.cc:32-37 | A closed block comment ends after its start, within the text |
| JsonReader.SkipTrivia | base/json/json_reader_unittest.cc:18-47 | Skipping whitespace and comments moves forward, within the text |
| JsonReader.DigitRunEnd | base/json/json_reader_unittest.cc:49-131 | The run of digits from a position: all digits, ending at a non-digit |
| JsonReader.DigitRunEndOfRun | base/json/json_reader_unittest.cc:49-131 | A maximal digit run is the one DigitRunEnd finds |
| JsonReader.LexNumber | base/json/json_reader_unittest.cc:49-167 | A number token is the exact slice of the text it spans; otherwise the token is invalid at its start |
| JsonReader.ExponentEndShape | base/json/json_reader_unittest.cc:98-117 | Without `e` or `E` the exponent is empty; otherwise a taken exponent ends, within the text, on a digit followed by a non-digit |
| JsonReader.DecodeNumberMeaning | base/json/json_reader_unittest.cc:49-131 | A number becomes an integer exactly when its literal is an integer whose value fits in 32 bits, and is that value; any other number keeps its literal as a double |
| JsonReader.LexString | base/json/json_reader_unittest.cc:169-220 | A string token ends after its start; an invalid string is reported at its start, with any escape error inside the text |
| JsonReader.SimpleEscapeIsAscii | base/json/json_reader_unittest.cc:185-192 | A one-character escape decodes to an ASCII code unit; `x`, `u` and the end of input are not one-character escapes |
| JsonReader.HexNumberBelow | base/json/json_reader_unittest.cc:194-201 | n hex digits give a value below 16 to the n |
| JsonReader.Lex | base/json/json_reader_unittest.cc:15-220 | Every token but end of input and an invalid token is non-empty; end of input is exactly the terminating null |
| JsonReader.ParseValue | base/json/json_reader_unittest.cc:15-440 | A parsed value ends after where it starts, and a failure is reported within the text |
| JsonReader.ParseArray | base/json/json_reader_unittest.cc:222-294 | A parsed list is a list and ends after its bracket |
| JsonReader.ParseElements | base/json/json_reader_unittest.cc:222-294 | The element loop yields a list |
| JsonReader.ParseObject | base/json/json_reader_unittest.cc:296-421 | A parsed dictionary is a dictionary and ends after its brace |
| JsonReader.ParseMembers | base/json/json_reader_unittest.cc:296-421 | The member loop yields a dictionary |
| JsonReader.ParseMemberValue | base/json/json_reader_unittest.cc:296-421 | The value after a key yields a dictionary |
| JsonReader.LineColumn | base/json/json_reader_unittest.cc:480-488 | Lines and columns count from 1 |
| JsonReader.LineColumnCounts | base/json/json_reader_unittest.cc:480-488 | The line is one more than the newlines before the error, and the column counts the characters since the last newline, plus one |
| JsonReader.LineColumnSingleLine | base/json/json_reader_unittest.cc:490-563 | On a single line, the error is at line 1 and column offset plus one |
| JsonReader.JsonToValue | base/json/json_reader_unittest.cc:15-468 | With the root check, a result is a list or a dictionary; an error has a line and a column from 1 |
| JsonReader.Read | base/json/json_reader_unittest.cc:459-467 | A value read is a list or a dictionary |
| JsonReader.ErrorCode | base/json/json_reader_unittest.cc:470-564 | Every error kind has a nonzero code |
| JsonReader.ReadAndReturnError | base/json/json_reader_unittest.cc:470-564 | On success the caller's code and message are left alone; on failure the message is the reader's error and the code that error kind's nonzero code |
| JsonReader.AllDigitsSlice | base/json/json_reader_unittest.cc:49-167 | A slice is all digits exactly when each of its characters is |
| JsonReader.LexFracPart | base/json/json_reader_unittest.cc:133-139 | The fraction the lexer takes has the form of section 2.4 of RFC 4627 |
| JsonReader.LexExpPart | base/json/json_reader_unittest.cc:141-149 | The exponent the lexer takes has the form of section 2.4 of RFC 4627 |
| JsonReader.LexedNumberIsRfc | base/json/json_reader_unittest.cc:57-167 | Every number the lexer accepts is a number of section 2.4 of RFC 4627 |
| JsonReader.NumberTokenIsRfc | base/json/json_reader_unittest.cc:57-167 | The literal of every number token the number lexer accepts is a number of section 2.4 of RFC 4627 |
| JsonReader.SlicesMakeRfcNumber | base/json/json_reader_unittest.cc:57-167 | A sign, an integer part, a fraction and an exponent of section 2.4 of RFC 4627 make a number |
| JsonReader.RfcIntFracScan | base/json/json_reader_unittest.cc:49-131 | The lexer's digit scans stop at the end of the integer and fraction parts of a number of section 2.4 |
| JsonReader.RfcExpScan | base/json/json_reader_unittest.cc:98-117 | The lexer's exponent scan takes the whole exponent of a number of section 2.4 |
| JsonReader.RfcNumberLexes | base/json/json_reader_unittest.cc:49-131 | Every number of section 2.4 of RFC 4627 is lexed as one number token covering it all |
| JsonReader.RfcNumberScans | base/json/json_reader_unittest.cc:49-131 | The number lexer takes the whole of a text split into sign, integer part, fraction and exponent |
| JsonReader.NumberDocument | base/json/json_reader_unittest.cc:49-131 | A document holding one number of section 2.4 reads as that number, an integer when it is a plain 32-bit integer and a double otherwise |
| JsonReader.OpenBracketsFail | base/json/json_reader_unittest.cc:423-427 | A run of open brackets past the limit fails with too much nesting at the 101st bracket |
| JsonReader.TooDeepIsRefused | base/json/json_reader_unittest.cc:498-508 | Any text starting with 101 open brackets is refused for too much nesting at line 1, column 101 |
| JsonReader.SiblingLists | base/json/json_reader_unittest.cc:429-435 | The test's text: 3n + 4 characters, opening with a bracket and ending with a last empty list and the closing bracket |
| JsonReader.SiblingListAt | base/json/json_reader_unittest.cc:429-435 | Each of the first n lists in the test's text is an empty list followed by a comma |
| JsonReader.SiblingElements | base/json/json_reader_unittest.cc:429-440 | The element loop reads the sibling lists one by one |
| JsonReader.EmptyListThenMore | base/json/json_reader_unittest.cc:429-440 | An empty list followed by a comma and another list moves the element loop on |
| JsonReader.ElementsContinue | base/json/json_reader_unittest.cc:222-294 | After an element followed by `,[` the element loop goes on at the `[` with the element appended |
| JsonReader.EmptyListLast | base/json/json_reader_unittest.cc:429-440 | A last empty list closes the outer list |
| JsonReader.EmptyListAt | base/json/json_reader_unittest.cc:234-239 | `[]` is read as an empty list |
| JsonReader.SiblingListsRead | base/json/json_reader_unittest.cc:429-440 | n sibling empty lists inside one list (5000 in the test) read as a list of n + 1 empty lists |
| JsonReaderCases.FiveThousandSiblings | base/json/json_reader_unittest.cc:429-440 | The test's 5000 sibling empty lists read as a list of 5001 empty lists |
| JsonReader.ValueWidens | base/json/json_reader_unittest.cc:229-294 | Allowing trailing commas keeps every success and adds only inputs refused for a trailing comma |
| JsonReader.ArrayWidens | base/json/json_reader_unittest.cc:229-294 | The same for lists |
| JsonReader.ElementsWidens | base/json/json_reader_unittest.cc:229-294 | The same for the element loop |
| JsonReader.ObjectWidens | base/json/json_reader_unittest.cc:316-359 | The same for dictionaries |
| JsonReader.MembersWidens | base/json/json_reader_unittest.cc:316-359 | The same for the member loop |
| JsonReader.MemberValueWidens | base/json/json_reader_unittest.cc:316-359 | The same after a key |
| JsonReader.TrailingCommaWidens | base/json/json_reader_unittest.cc:229-359 | A document read without trailing commas reads the same with them allowed; one read only with them allowed was refused for a trailing comma |
| JsonReader.PlainRun | base/json/json_reader_unittest.cc:170-175 | A run of plain characters in a string is taken as is |
| JsonReader.UnitsInjective | chrome/browser/sync/sync_setup_flow.cc:53-55 | Distinct key texts give distinct code-unit sequences, so the dictionary keys the readers look up never collide |
| JsonReader.HexDigit | base/json/json_reader_unittest.cc:194-201 | The digit written for a value below 16 is a hex digit with that value |
| JsonReader.HexDigits | base/json/json_reader_unittest.cc:194-201 | Writing a value as n hex digits gives n characters |
| JsonReader.HexDigitsScan | base/json/json_reader_unittest.cc:194-201 | n hex digits written for a value below 16 to the n scan back as a hex run with that value |
| JsonReader.UnitScan | base/json/json_reader_unittest.cc:185-201 | The escape written for one code unit is lexed back as that code unit |
| JsonReader.QuoteBodyScan | base/json/json_reader_unittest.cc:169-201 | The string body written for any code units is lexed back as those code units, up to the closing quote |
| JsonReader.QuoteScans | base/json/json_reader_unittest.cc:169-201 | For any code units below 0x10000, the quoted string written for them lexes to a string token with exactly those units, spanning the whole text |
| JsonReaderVectors.IntegersAreIntegers | base/json/json_reader_unittest.cc:50-72 | `43` and `0` read as integers |
| JsonReaderVectors.TooLargeIntegerIsDouble | base/json/json_reader_unittest.cc:76-82 | `2147483648` reads as a double |
| JsonReaderVectors.TooSmallIntegerIsDouble | base/json/json_reader_unittest.cc:83-88 | `-2147483649` reads as a double |
| JsonReaderVectors.FractionIsDouble | base/json/json_reader_unittest.cc:90-95 | `43.1` reads as a double |
| JsonReaderVectors.SmallFractionIsDouble | base/json/json_reader_unittest.cc:118-123 | `0.01` reads as a double |
| JsonReaderVectors.ZeroFractionIsDouble | base/json/json_reader_unittest.cc:125-130 | `1.00` reads as a double |
| JsonReaderVectors.NegativeExponentIsDouble | base/json/json_reader_unittest.cc:98-103 | `4.3e-1` reads as a double |
| JsonReaderVectors.ZeroExponentIsDouble | base/json/json_reader_unittest.cc:105-110 | `2.1e0` reads as a double |
| JsonReaderVectors.SignedExponentIsDouble | base/json/json_reader_unittest.cc:112-117 | `2.1e+0001` reads as a double |
| JsonReaderCases.RootList | base/json/json_reader_unittest.cc:222-294 | A text opening with `[` reads, at the root or not, as the list after the bracket |
| JsonReaderCases.RootDict | base/json/json_reader_unittest.cc:296-421 | A text opening with `{` reads, at the root or not, as the dictionary after the brace |
| JsonReaderCases.MillionBracketsRefused | base/json/json_reader_unittest.cc:423-427 | A million `[` then a million `]` is refused for too much nesting |
| JsonReaderCases.NestedListsError | base/json/json_reader_unittest.cc:498-508 | 101 nested lists give too much nesting at line 1, column 101, with its code |
| JsonReaderCases.SuccessLeavesDiagnostics | base/json/json_reader_unittest.cc:475-478 | A successful read leaves the caller's code and message as they were |
| JsonReaderCases.PaddedNull | base/json/json_reader_unittest.cc:18-20 | Whitespace around a root value is skipped: `JsonToValue(s, false, false) == Ok(Null)` |
| JsonReaderCases.TruncatedKeyword | base/json/json_reader_unittest.cc:23-24 | A truncated keyword is not a value: `JsonToValue(s, false, false).Err?` |
| JsonReaderCases.BoolWithTrailingSpace | base/json/json_reader_unittest.cc:27-29 | A boolean followed by spaces is read: `JsonToValue(s, false, false) == Ok(Bool(true))` |
| JsonReaderCases.CommentBeforeNull | base/json/json_reader_unittest.cc:32-34 | A block comment before the value is skipped: `JsonToValue(s, false, false) == Ok(Null)` |
| JsonReaderCases.CommentAfterInteger | base/json/json_reader_unittest.cc:35-37 | A block comment after the value is skipped: `JsonToValue(s, false, false) == Ok(Integer(40))` |
| JsonReaderCases.LineCommentAfterBool | base/json/json_reader_unittest.cc:38-40 | A line comment running to the end of the input is skipped: `JsonToValue(s, false, false) == Ok(Bool(true))` |
| JsonReaderCases.CommentBeforeString | base/json/json_reader_unittest.cc:41-47 | A block comment before a string is skipped and the string is kept: `JsonToValue(s, false, false) == Ok(Str([115, 97, 109, 112, 108, 101, 32, 115, 116, 114, 105, 110, 103]))` |
| JsonReaderCases.RejectsLeadingZero | base/json/json_reader_unittest.cc:58-59 | A number with a leading zero is refused: `JsonToValue(s, false, false).Err?` |
| JsonReaderCases.RejectsHexNumber | base/json/json_reader_unittest.cc:60-61 | A number with a hexadecimal literal is refused: `JsonToValue(s, false, false).Err?` |
| JsonReaderCases.RejectsDoubleZero | base/json/json_reader_unittest.cc:62-63 | A number with two zeros is refused: `JsonToValue(s, false, false).Err?` |
| JsonReaderCases.RejectsNoFractionDigits | base/json/json_reader_unittest.cc:134-135 | A number with a point without digits after it is refused: `JsonToValue(s, false, false).Err?` |
| JsonReaderCases.RejectsNoIntegerDigits | base/json/json_reader_unittest.cc:136-137 | A number with a point without digits before it is refused: `JsonToValue(s, false, false).Err?` |
| JsonReaderCases.RejectsEmptyFractionBeforeExponent | base/json/json_reader_unittest.cc:138-139 | A number with an empty fraction is refused: `JsonToValue(s, false, false).Err?` |
| JsonReaderCases.RejectsNoExponentDigits | base/json/json_reader_unittest.cc:142-143 | A number with an exponent without digits is refused: `JsonToValue(s, false, false).Err?` |
| JsonReaderCases.RejectsNoUpperExponentDigits | base/json/json_reader_unittest.cc:144-145 | A number with an upper-case exponent without digits is refused: `JsonToValue(s, false, false).Err?` |
| JsonReaderCases.RejectsPointAfterExponent | base/json/json_reader_unittest.cc:146-147 | A number with a point after the exponent is refused: `JsonToValue(s, false, false).Err?` |
| JsonReaderCases.RejectsFractionAfterExponent | base/json/json_reader_unittest.cc:148-149 | A number with a fraction after the exponent is refused: `JsonToValue(s, false, false).Err?` |
| JsonReaderCases.RejectsUpperNaN | base/json/json_reader_unittest.cc:156-157 | A number with NaN is refused: `JsonToValue(s, false, false).Err?` |
| JsonReaderCases.RejectsLowerNaN | base/json/json_reader_unittest.cc:158-159 | A number with nan is refused: `JsonToValue(s, false, false).Err?` |
| JsonReaderCases.RejectsInfinity | base/json/json_reader_unittest.cc:160-161 | A number with inf is refused: `JsonToValue(s, false, false).Err?` |
| JsonReaderCases.RejectsTwoPoints | base/json/json_reader_unittest.cc:164-165 | A number with two decimal points is refused: `JsonToValue(s, false, false).Err?` |
| JsonReaderCases.RejectsFractionalExponent | base/json/json_reader_unittest.cc:166-167 | A number with a fractional exponent is refused: `JsonToValue(s, false, false).Err?` |
| JsonReaderCases.HelloWorld | base/json/json_reader_unittest.cc:170-175 | A plain string is read as its characters: `JsonToValue(s, false, false) == Ok(Str([104, 101, 108, 108, 111, 32, 119, 111, 114, 108, 100]))` |
| JsonReaderCases.EmptyString | base/json/json_reader_unittest.cc:178-183 | An empty string is read: `JsonToValue(s, false, false) == Ok(Str([]))` |
| JsonReaderCases.BasicEscapes | base/json/json_reader_unittest.cc:186-192 | The one-character escapes, including the vertical tab, decode to their characters: `JsonToValue(s, false, false) == Ok(Str([32, 34, 92, 47, 8, 12, 10, 13, 9, 11]))` |
| JsonReaderCases.HexAndUnicodeEscapes | base/json/json_reader_unittest.cc:195-201 | Hex and unicode escapes decode to one code unit each, the null character included: `JsonToValue(s, false, false) == Ok(Str([65, 0, 4660]))` |
| JsonReaderCases.NoClosingQuote | base/json/json_reader_unittest.cc:204-205 | A string without its closing quote is refused: `JsonToValue(s, false, false).Err?` |
| JsonReaderCases.InvalidEscapeChar | base/json/json_reader_unittest.cc:206-208 | An unknown escape character is refused: `JsonToValue(s, false, false).Err?` |
| JsonReaderCases.InvalidHexCode | base/json/json_reader_unittest.cc:209-211 | A hex escape with a non-hex digit is refused: `JsonToValue(s, false, false).Err?` |
| JsonReaderCases.UnquotedText | base/json/json_reader_unittest.cc:212-214 | Text that is not a value is refused: `JsonToValue(s, false, false).Err?` |
| JsonReaderCases.ShortUnicodeEscape | base/json/json_reader_unittest.cc:215-217 | A unicode escape with three digits is refused: `JsonToValue(s, false, false).Err?` |
| JsonReaderCases.BackslashAtEnd | base/json/json_reader_unittest.cc:218-220 | A backslash that escapes the closing quote leaves the string open: `JsonToValue(s, false, false).Err?` |
| JsonReaderCases.ArrayBasic | base/json/json_reader_unittest.cc:223-227 | A list of three literals: `Read(s, false) == Some(List([Bool(true), Bool(false), Null]))` |
| JsonReaderCases.ArrayBasicTrailing | base/json/json_reader_unittest.cc:231-232 | The same list with a trailing comma, allowed: `Read(s, true) == Some(List([Bool(true), Bool(false), Null]))` |
| JsonReaderCases.ArrayTrailingCommaMatches | base/json/json_reader_unittest.cc:223-232 | The list with a trailing comma, allowed, reads equal to the list without it |
| JsonReaderCases.NestedArrays | base/json/json_reader_unittest.cc:241-247 | Nested lists: `Read(s, false) == Some(List([List([Bool(true)]), List([]), List([Bool(false), List([]), List([Null])]), Null]))` |
| JsonReaderCases.NestedArraysTrailing | base/json/json_reader_unittest.cc:249-252 | The same nested lists with trailing commas at every level, allowed, read to the same value |
| JsonReaderCases.NestedArraysTrailingMatches | base/json/json_reader_unittest.cc:241-252 | The nested lists read as a four-element list, equal with and without trailing commas |
| JsonReaderCases.NestedArraysNoClose | base/json/json_reader_unittest.cc:254-256 | Nested lists without the outer closing bracket are refused |
| JsonReaderCases.EmptyArray | base/json/json_reader_unittest.cc:235-239 | An empty list: `Read(s, false) == Some(List([]))` |
| JsonReaderCases.ArrayDoubleComma | base/json/json_reader_unittest.cc:259-260 | Two commas in a row are refused: `Read(s, false) == None` |
| JsonReaderCases.ArrayDoubleCommaTrailing | base/json/json_reader_unittest.cc:261-262 | Two commas in a row are refused even when trailing commas are allowed: `Read(s, true) == None` |
| JsonReaderCases.ArrayNoComma | base/json/json_reader_unittest.cc:265-266 | Elements without a comma are refused: `Read(s, false) == None` |
| JsonReaderCases.ArrayTrailingRefused | base/json/json_reader_unittest.cc:269-270 | A trailing comma is refused by default: `Read(s, false) == None` |
| JsonReaderCases.ArrayTrailingAllowed | base/json/json_reader_unittest.cc:273-283 | A trailing comma is accepted when allowed: `Read(s, true) == Some(List([Bool(true)]))` |
| JsonReaderCases.ArrayLoneComma | base/json/json_reader_unittest.cc:287-288 | A lone comma is not an empty element: `Read(s, true) == None` |
| JsonReaderCases.ArrayTwoTrailingCommas | base/json/json_reader_unittest.cc:289-290 | Two trailing commas are refused: `Read(s, true) == None` |
| JsonReaderCases.ArrayLeadingComma | base/json/json_reader_unittest.cc:291-292 | A leading comma is refused: `Read(s, true) == None` |
| JsonReaderCases.ArrayEmptyMiddle | base/json/json_reader_unittest.cc:293-294 | An empty element in the middle is refused: `Read(s, true) == None` |
| JsonReaderCases.EmptyObject | base/json/json_reader_unittest.cc:297-299 | An empty dictionary: `Read(s, false) == Some(Dict(map[]))` |
| JsonReaderCases.MixedObject | base/json/json_reader_unittest.cc:301-314 | `Read(s, false)` is the dictionary with `number` the double `9.87654321`, `null` null and the hex-escaped key `S` the string `str` |
| JsonReaderCases.MixedObjectTrailing | base/json/json_reader_unittest.cc:316-319 | The same dictionary with a trailing comma, allowed, reads to the same value |
| JsonReaderCases.MixedObjectNewlines | base/json/json_reader_unittest.cc:321-329 | The same dictionary over lines ending in a line feed reads to the same value |
| JsonReaderCases.MixedObjectCrlf | base/json/json_reader_unittest.cc:331-338 | The same dictionary over lines ending in a carriage return and a line feed reads to the same value |
| JsonReaderCases.MixedObjectVariantsMatch | base/json/json_reader_unittest.cc:301-338 | The dictionary holds `S` as `str`, and its trailing-comma, line-feed and carriage-return variants read equal to it |
| JsonReaderCases.NestedObject | base/json/json_reader_unittest.cc:340-355 | Nested dictionaries: `inner` holds `array` with `[true]`, `false` is false and `d` is an empty dictionary |
| JsonReaderCases.NestedObjectTrailing | base/json/json_reader_unittest.cc:357-359 | The same nested dictionaries with trailing commas, allowed, read to the same value |
| JsonReaderCases.NestedObjectTrailingMatches | base/json/json_reader_unittest.cc:340-359 | The nested dictionaries read equal with and without trailing commas |
| JsonReaderCases.PeriodKeys | base/json/json_reader_unittest.cc:361-378 | Keys with periods are plain keys: `a.b` is 3, `c` is 2 and `d.e.f` is a dictionary with `g.h.i.j` 1 |
| JsonReaderCases.PeriodKeyBesideNested | base/json/json_reader_unittest.cc:380-387 | A key with a period sits beside the nested key it would name as a path: `Read(s, false) == Some(Dict(map[[97] := Dict(map[[98] := Integer(2)]), [97, 46, 98] := Integer(1)]))` |
| JsonReaderCases.ObjectNoClose | base/json/json_reader_unittest.cc:390-391 | A dictionary without its closing brace is refused: `Read(s, false) == None` |
| JsonReaderCases.ObjectUnquotedKey | base/json/json_reader_unittest.cc:394-395 | An unquoted key is refused: `Read(s, false) == None` |
| JsonReaderCases.ObjectTrailingRefused | base/json/json_reader_unittest.cc:398-399 | A trailing comma in a dictionary is refused by default: `Read(s, false) == None` |
| JsonReaderCases.ObjectDoubleComma | base/json/json_reader_unittest.cc:402-403 | Two commas in a row are refused: `Read(s, false) == None` |
| JsonReaderCases.ObjectDoubleCommaTrailing | base/json/json_reader_unittest.cc:404-405 | Two commas in a row are refused even when trailing commas are allowed: `Read(s, true) == None` |
| JsonReaderCases.ObjectNoSeparator | base/json/json_reader_unittest.cc:408-409 | A key without its colon is refused: `Read(s, false) == None` |
| JsonReaderCases.ObjectLoneComma | base/json/json_reader_unittest.cc:412-413 | A lone comma is refused: `Read(s, false) == None` |
| JsonReaderCases.ObjectLoneCommaTrailing | base/json/json_reader_unittest.cc:414-415 | A lone comma is refused even when trailing commas are allowed: `Read(s, true) == None` |
| JsonReaderCases.ObjectTwoTrailingCommas | base/json/json_reader_unittest.cc:416-417 | Two trailing commas are refused: `Read(s, true) == None` |
| JsonReaderCases.ObjectLeadingComma | base/json/json_reader_unittest.cc:418-419 | A leading comma is refused: `Read(s, true) == None` |
| JsonReaderCases.NullRoot | base/json/json_reader_unittest.cc:460-461 | A null root is refused by Read: `Read(s, false) == None` |
| JsonReaderCases.TrueRoot | base/json/json_reader_unittest.cc:462-463 | A boolean root is refused by Read: `Read(s, false) == None` |
| JsonReaderCases.IntegerRoot | base/json/json_reader_unittest.cc:464-465 | An integer root is refused by Read: `Read(s, false) == None` |
| JsonReaderCases.StringRoot | base/json/json_reader_unittest.cc:466-467 | A string root is refused by Read: `Read(s, false) == None` |
| JsonReaderCases.BigJsonError | base/json/json_reader_unittest.cc:481-488 | A missing comma on the fifth line is a syntax error at line 5, column 9: `ReadAndReturnError(s, false, NoError, None) == Report(None, ErrorCode(SyntaxError), Some(ParseError(SyntaxError, 5, 9)))` |
| JsonReaderCases.DataAfterRootError | base/json/json_reader_unittest.cc:491-496 | Data after the root is reported at the comma: `ReadAndReturnError(s, false, NoError, None) == Report(None, ErrorCode(UnexpectedDataAfterRoot), Some(ParseError(UnexpectedDataAfterRoot, 1, 3)))` |
| JsonReaderCases.BadRootError | base/json/json_reader_unittest.cc:510-515 | A root that is neither list nor dictionary is reported at its start: `ReadAndReturnError(s, false, NoError, None) == Report(None, ErrorCode(BadRootElementType), Some(ParseError(BadRootElementType, 1, 1)))` |
| JsonReaderCases.ListTrailingCommaError | base/json/json_reader_unittest.cc:517-522 | A trailing comma in a list is reported at the closing bracket: `ReadAndReturnError(s, false, NoError, None) == Report(None, ErrorCode(TrailingComma), Some(ParseError(TrailingComma, 1, 4)))` |
| JsonReaderCases.UnquotedKeyError | base/json/json_reader_unittest.cc:524-529 | An unquoted key is reported at the key: `ReadAndReturnError(s, false, NoError, None) == Report(None, ErrorCode(UnquotedDictionaryKey), Some(ParseError(UnquotedDictionaryKey, 1, 2)))` |
| JsonReaderCases.ObjectTrailingCommaError | base/json/json_reader_unittest.cc:531-535 | A trailing comma in a dictionary is reported at the closing brace: `ReadAndReturnError(s, false, NoError, None) == Report(None, ErrorCode(TrailingComma), Some(ParseError(TrailingComma, 1, 14)))` |
| JsonReaderCases.TruncatedKeywordError | base/json/json_reader_unittest.cc:537-542 | A truncated keyword is a syntax error at its start: `ReadAndReturnError(s, false, NoError, None) == Report(None, ErrorCode(SyntaxError), Some(ParseError(SyntaxError, 1, 2)))` |
| JsonReaderCases.BadHexEscapeError | base/json/json_reader_unittest.cc:544-549 | A bad hex escape is reported after the backslash: `ReadAndReturnError(s, false, NoError, None) == Report(None, ErrorCode(InvalidEscape), Some(ParseError(InvalidEscape, 1, 7)))` |
| JsonReaderCases.BadUnicodeEscapeError | base/json/json_reader_unittest.cc:551-556 | A bad unicode escape is reported after the backslash: `ReadAndReturnError(s, false, NoError, None) == Report(None, ErrorCode(InvalidEscape), Some(ParseError(InvalidEscape, 1, 7)))` |
| JsonReaderCases.UnknownEscapeError | base/json/json_reader_unittest.cc:558-563 | An unknown escape is reported after the backslash: `ReadAndReturnError(s, false, NoError, None) == Report(None, ErrorCode(InvalidEscape), Some(ParseError(InvalidEscape, 1, 7)))` |
| JsonReaderCases.SuccessKeepsCode | base/json/json_reader_unittest.cc:475-478 | A successful read: `Read(s, false) == Some(List([Integer(42)]))` |

## Left out

- JSON reader: its implementation file `base/json/json_reader.cc` is not part of this model. The reader is modelled on the behaviour its unit tests pin down.
- JSON reader: the UTF-8 validity of the input (tests at lines 451-457) is not modelled. The model reads Unicode characters (Dafny `char`s) and takes each plain character as one unit, so a character above U+FFFF is one unit rather than the surrogate pair a UTF-16 reader would see, and an unpaired surrogate cannot occur in the input. Only `\u` escapes produce 16-bit units.
- JSON reader: doubles are kept as the text of their literal. Converting them to floating point is left out, and so is the overflow of `1e1000` (lines 152-155).
- JSON reader: a `\u` surrogate pair is kept as two code units. It is not combined or validated.
- JSON reader: an error message is modelled as its kind, line and column, not as its wording.
- JSON reader: the tests look values up through the value classes, which are not part of this model. The case lemmas state the whole parsed value instead, from which each lookup the tests make can be read off. The path-expanded lookup of `a.b` at line 384 is DictionaryValue behaviour and is left out; the dictionary it reads is stated by `PeriodKeyBesideNested`.
- JSON reader: `Equals` between two parsed values is modelled as equality of the model's values. Doubles compare by their literal text, which is the same in every compared pair of the tests.
- JSON reader: an escape error is reported at the position the test expects, just after the backslash.
- JSON reader: an unterminated block comment is reported as a syntax error at the comment's start.
- TabStrip: observers, the delegate and the tab order controller are left out. The order controller's choice of the next selected tab is a parameter (`nextSelected`). When the selected tab is detached and a live tab remains, `DetachTabContentsAt` requires that choice to be a tab (not NoTab), since the source's `ChangeSelectedContentsFrom` DCHECKs that the index it is given is in the strip.
- TabStrip.TabStripModel.InsertTabContentsAt: requires the new contents not to be in the strip already. The source does not check this; the model needs it to keep every contents id unique.
- TabStrip: deleting a tab's contents, and notifying anyone of it, is left out. Contents are ids.
- TabStrip.TabStripModel.SelectRelativeTab: requires a valid selection, which the source assumes but does not check.
- HistoryUrl.SortByRank: models `std::sort` with an insertion sort. It proves a sorted permutation but claims nothing about stability, which `std::sort` does not promise.
- HistoryUrl: the scheme test (HasHTTPScheme), the result limits and the relevance threshold are parameters. GURL parsing is left out: URLs are strings and a match's redirect list comes from a function parameter.
- HistoryUrl.HistoryUrlProvider.DeleteMatch: deleting from the history database is left out. So is the final `listener_->OnProviderUpdate(true)` (line 178), a notification to the autocomplete controller, which is outside the model. `canDelete` stands for a history service being present and the URL being valid. The DCHECK on `done_`, which lives in the provider base class, becomes a requires.
- HistoryUrl.RelevanceRanks: `input_type` is unused by the source's CalculateRelevance and is left out.
- HistoryUrl.CullRedirects: states a bound, that every result comes from the input and that the first is kept. It does not state the exact result, which depends on the redirect lists.
- SyncSetup: the HTML dialog, its JavaScript calls, histograms and dialog sizing are left out. So are the ties to the wizard container and to the browser.
- SyncSetup: the header declaring the wizard states is not part of this model. Only the states that `sync_setup_flow.cc` uses are modelled.
- SyncSetup.SyncSetupFlow.OnDialogClosed: the DCHECK that the dialog returns an empty reply is left out, and the reply is not a parameter.
- SyncSetup.GetDataTypeChoiceDataMeaning: the eight straight-line flag reads are modelled as one recursion over a table of keys and types, with the same keys, types and order.
- CancelableRequest: the lock, message loops and consumer callbacks are left out. Notifications are appended to a log.
- CancelableRequest.Provider.AddRequest: the 32-bit wrap-around of the handle counter is not modelled. Handles are unbounded integers.
- CancelableRequest.Provider.CancelRequestLocked: an unknown handle, which the source treats as NOTREACHED, is modelled as changing nothing.
- CancelableRequest.Provider.RequestCompleted: an unknown handle, which the source treats as NOTREACHED (lines 63-66), is modelled as changing nothing, and the DCHECK that a completed request is not canceled is proved from `Valid` instead of checked.
- CancelableRequest.Provider.CancelAllPending: models the provider's destructor, which cancels every pending request.
- CancelableRequest.Provider.Valid: does not state that each pending request names this provider and a consumer. Those facts are set once by `Init` and are not needed by the proofs.
