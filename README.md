# Supplement assistant: verified model of its server routes and two client screens

The application is a supplement helper. Its Deno/Hono server turns a product name into the list of ingredients it mentions, signs users up, and stores each user's intake reminders. Its React client has an interaction-checker screen and a reminder screen. This project models the deterministic core of these parts in Dafny and proves what each promises:

- **The `extract-ingredients` route.** The product name is lower-cased, then scanned against an ordered keyword list. Each keyword found in the name is looked up in a keyword-to-canonical-name table, and its name is appended unless it is already present. The reply message depends on the number of names found. (`Lexicon`, `KeywordScan`, `Extractor`, `ExtractorExamples`)
- **The `signup` route.** It checks for a duplicate e-mail address, then creates the account. A rejection's error message is rewritten by an ordered chain of substring tests. (`Signup`)
- **The three reminder routes** (create, list, delete). Each has a bearer-token gate. A user's reminders form one list in a key-value store, under the key `reminders:<user id>`. (`ReminderApi`)
- **The interaction-checker screen.** It holds a product list built from extraction replies, removes products by position, and refuses to check fewer than two products. It shows the order-preserving de-duplicated ingredient summary, the check button's condition, and the result panel's labels. (`InteractionChecker`)
- **The reminder screen.** It covers the add form's draft and its reset, weekday toggling, add validation, and the calendar's per-weekday selection. (`ReminderManager`)

Shared modules:
- `Seqs` holds de-duplication, `filter`, `filter` by index and `flatMap`.
- `Text` holds `toLowerCase` (ASCII), `includes`, `trim`, `split(' ')` and decimal rendering.
- `Optional` holds the `Option` type.

Things that change state are modelled as classes:
- the key-value store, `ReminderApi.KvStore`;
- the two screens, `InteractionChecker.Checker` and `ReminderManager.Manager`.

The route handlers and the screens' handlers are methods:
- `Extractor.HandleExtractIngredients`, `Signup.FriendlySignupError` and `Signup.HandleSignup`;
- the three reminder routes;
- every handler of the two screen classes.

The extraction loop is a method with a loop invariant, proved against the specification function `KeywordScan.Found`. The computations the methods are specified by are functions, and their properties are lemmas.

Each screen class has a `Valid()` invariant. The handlers preserve it, and none requires it. The handlers that change the field it constrains prove `old(Valid()) ==> Valid()`. `ReminderManager.Manager.ToggleDay` proves this only for a day among the form values, the only ones the form offers. The other handlers leave that field unchanged. `InteractionChecker.Checker.Valid` says every product came from an accepted extraction; by `InteractionChecker.WellFormedSummaryNonEmpty`, a non-empty product list then shows a non-empty ingredient summary. `ReminderManager.Manager.Valid` says the draft's days are distinct form values; by `ReminderManager.ValidDraftDaysOnCalendar`, each of them is the label of a calendar weekday.

Everything outside the program is a parameter, not something the model computes:
- The authentication provider is a function from token to result.
- The provider's user listing and account creation are given by their outcomes.
- The random id and the timestamp of a new reminder are passed in.
- Each `fetch` a screen makes is given by how it ended.

Ghost request logs record which store keys a route touched and which requests a screen sent. They let the contracts say "nothing was read or written" and "no request was sent".

The keyword list is commented as ordered by priority, longer keywords first (src/index.tsx:389), and the scan as matching longer keywords first to avoid duplicates (src/index.tsx:504). The code implements no such suppression: every keyword that occurs in the lower-cased name contributes its name, and only equal names are merged. Two consequences are proved:
- "비타민 B12" also contains the keywords "비타민 b1", "b1" and "비타민 b", so it yields 비타민B12, 비타민B1, 비타민B (`ExtractorExamples.VitaminB12Example`).
- The abbreviation 'vita' (src/index.tsx:418) is a substring of every English "vitamin …" name, including "multivitamin". So "Vitamin D" yields 비타민A as well (`ExtractorExamples.VitaYieldsVitaminA`, `ExtractorExamples.VitaminDExample`).

## Model

| member | source | states |
|---|---|---|
| Text.LowerChar | src/index.tsx:386 | Lower-casing a character never yields an upper-case ASCII letter; every other character is kept. |
| Text.ToLower | src/index.tsx:386 | `toLowerCase` keeps the length and maps every character through the ASCII lower-casing. |
| Text.ToLowerIdentifiesCase | src/index.tsx:386 | Two names lower-case to the same text exactly when they differ only in ASCII case. |
| Text.ToLowerIdempotent | src/index.tsx:386 | Lower-casing twice is lower-casing once. |
| Text.ToLowerOfLowerCase | src/index.tsx:386 | A text with no upper-case ASCII letter is its own lower-case form (Hangul keywords are unchanged). |
| Text.NoAsciiUpperFromAll | src/index.tsx:386 | The recursive no-upper-case test means that no position from `i` on holds an upper-case letter. |
| Text.MatchesAtIffSlice | src/index.tsx:506 | The character-by-character match at a position holds exactly when the slice there equals the keyword. |
| Text.IncludesFromIffOccurs | src/index.tsx:506 | The search from a position finds the keyword exactly when it occurs at some later position. |
| Text.IncludesIffOccurs | src/index.tsx:506 | `includes` holds exactly when the keyword occurs at some position. |
| Text.AbsentCharExcludes | src/index.tsx:506 | A text lacking one of the keyword's characters does not include the keyword. |
| KeywordScan.Hit | src/index.tsx:506-508 | One keyword contributes at most one name, and exactly the name it produces: found in the text, in the table, and non-empty. |
| KeywordScan.ScanStep | src/index.tsx:506-510 | One loop step appends the keyword's name exactly when it is produced and not yet collected. |
| KeywordScan.ScanKeywords | src/index.tsx:505-512 | The loop's output is the specification `Found`: the de-duplicated contributions in keyword order. |
| KeywordScan.ScanHitsMember | src/index.tsx:505-510 | A name is among the first `n` contributions exactly when one of the first `n` keywords produces it. |
| KeywordScan.FoundMembers | src/index.tsx:505-512 | The result has no duplicates, and its names are exactly those produced by some keyword: in the table, non-empty, and found in the text. |
| KeywordScan.ScanHitsPrefix | src/index.tsx:505-510 | Scanning more keywords only extends the contributions. |
| KeywordScan.FoundFollowsKeywordOrder | src/index.tsx:505-510 | A name produced by an earlier keyword comes before a name first produced by a later keyword: the order follows the keyword list, not the position in the name. |
| KeywordScan.ProducedEarly | src/index.tsx:505-510 | A name produced by keyword `i` first occurs within the contributions of the first `i + 1` keywords. |
| KeywordScan.NotProducedEarly | src/index.tsx:505-510 | A name that none of the first `i + 1` keywords produces first occurs after their contributions. |
| KeywordScan.ScanHitsConcat | src/index.tsx:390-445 | Scanning a concatenated keyword list is scanning its parts one after the other. |
| KeywordScan.ScanHitsConcat7 | src/index.tsx:390-445 | The same for the seven sections of the keyword list. |
| KeywordScan.ScanHitsSameStart | src/index.tsx:505-510 | Keyword lists with a common prefix give the same contributions over it. |
| KeywordScan.ScanHitsSkip | src/index.tsx:507-508 | A keyword without a table entry adds nothing to the contributions. |
| KeywordScan.ScanHitsMiss | src/index.tsx:506 | A keyword not found in the text adds nothing. |
| KeywordScan.ScanHitsHit | src/index.tsx:506-509 | A keyword found in the text, with a non-empty entry, adds exactly its name. |
| KeywordScan.UnmappedKeywordIgnored | src/index.tsx:507-508 | Removing a keyword without an entry from the list changes no result. |
| Lexicon.ElementSymbolsScanned | src/index.tsx:421-424 | `mg`, `ca`, `fe` and `zn` are in the keyword list, at their places among the minerals. |
| Lexicon.MgSymbolUnmapped | src/index.tsx:448-502 | `mg` has no table entry. |
| Lexicon.CaSymbolUnmapped | src/index.tsx:448-502 | `ca` has no table entry. |
| Lexicon.FeSymbolUnmapped | src/index.tsx:448-502 | `fe` has no table entry. |
| Lexicon.ZnSymbolUnmapped | src/index.tsx:448-502 | `zn` has no table entry. |
| Lexicon.ElementSymbolsUnmapped | src/index.tsx:421-424 | Each of the four element symbols is scanned but has no entry. |
| Lexicon.SpacedOmega3NotScanned | src/index.tsx:390-445 | "오메가 3" is not in the keyword list. |
| Lexicon.SpacedOmega3Mapped | src/index.tsx:464 | "오메가 3" has an entry, "오메가3". |
| Lexicon.SpacedOmega3Unscanned | src/index.tsx:464 | "오메가 3" has an entry but is never scanned. |
| Extractor.ExtractIngredients | src/index.tsx:386-512 | The route's computation is the scan specification applied to the lower-cased name. |
| Extractor.ExtractionIgnoresCase | src/index.tsx:386 | Names that differ only in ASCII case give the same ingredients. |
| Extractor.ElementSymbolsContributeNothing | src/index.tsx:421-424 | Dropping an element symbol from the keyword list changes no product's ingredients. |
| Extractor.ReplyMessage | src/index.tsx:526-528 | The message is the not-found text exactly when no ingredient was found; otherwise it is the decimal count followed by the found suffix, and the digits read back as the count. |
| Extractor.HandleExtractIngredients | src/index.tsx:380-534 | A body without a product name gets a 500 with the extraction error; otherwise the reply carries the name, its extraction and the matching message. |
| ExtractorExamples.B12EntriesOfLexicon | src/index.tsx:455-459 | The table maps "비타민 b12", "b12", "비타민 b1", "b1" and "비타민 b" to 비타민B12, 비타민B1 and 비타민B. |
| ExtractorExamples.ScanB12 | src/index.tsx:505-512 | Scanning "비타민 b12" with the whole list contributes 비타민B12 twice, 비타민B1 twice, and 비타민B, in that order. |
| ExtractorExamples.DedupB12Hits | src/index.tsx:508 | De-duplicating those contributions leaves 비타민B12, 비타민B1, 비타민B. |
| ExtractorExamples.VitaminB12Example | src/index.tsx:408-414 | "비타민 B12" yields exactly 비타민B12, 비타민B1, 비타민B: overlapping keywords all fire. |
| ExtractorExamples.VitaInVitaminMapping | src/index.tsx:453 | The vitamin section of the table maps 'vita' to 비타민A. |
| ExtractorExamples.VitaNotInBVitaminMapping | src/index.tsx:455-462 | The B-vitamin section has no 'vita' entry. |
| ExtractorExamples.VitaNotInOmegaMapping | src/index.tsx:464-466 | The omega section has no 'vita' entry. |
| ExtractorExamples.VitaNotInMineralMapping | src/index.tsx:468-473 | The mineral section has no 'vita' entry. |
| ExtractorExamples.VitaNotInOtherMappingA | src/index.tsx:475-485 | The first part of the remaining entries has no 'vita' entry. |
| ExtractorExamples.VitaNotInOtherMappingB | src/index.tsx:486-494 | The second part has no 'vita' entry. |
| ExtractorExamples.VitaNotInOtherMappingC | src/index.tsx:495-501 | The third part has no 'vita' entry. |
| ExtractorExamples.VitaScanned | src/index.tsx:418 | 'vita' is one of the scanned keywords. |
| ExtractorExamples.VitaMapped | src/index.tsx:448-502 | The whole table maps 'vita' to 비타민A; no later section overrides it. |
| ExtractorExamples.VitaYieldsVitaminA | src/index.tsx:504-511 | Every product name whose lower-cased form contains 'vita' yields 비타민A, whatever vitamin it names. |
| ExtractorExamples.VitaminDExample | src/index.tsx:386-511 | "Vitamin D" yields 비타민A. |
| Seqs.IndexOf | src/index.tsx:508 | The first position of an element holds it, and no earlier position does. |
| Seqs.Dedup | src/components/InteractionChecker.tsx:134 | De-duplication keeps exactly the input's elements and never lengthens the input. |
| Seqs.DedupNoDup | src/components/InteractionChecker.tsx:134 | The de-duplicated sequence has no duplicates. |
| Seqs.DedupSnoc | src/index.tsx:508-509 | Appending an element to the input appends it to the output exactly when it is new: the `includes`/`push` idiom. |
| Seqs.DedupPrefix | src/components/InteractionChecker.tsx:134 | De-duplicating a prefix gives a prefix of the output. |
| Seqs.DedupOfNoDup | src/components/InteractionChecker.tsx:134 | An input without duplicates is unchanged. |
| Seqs.DedupKeepsFirstOccurrenceOrder | src/components/InteractionChecker.tsx:134 | Elements keep the order of their first occurrences. |
| Seqs.IndexOfAtMost | src/components/InteractionChecker.tsx:134 | The first occurrence is no later than any occurrence. |
| Seqs.IndexOfBeyondPrefix | src/components/InteractionChecker.tsx:134 | An element missing from a prefix first occurs after it. |
| Seqs.Filter | src/index.tsx:665 | `filter` keeps exactly the elements that pass, and never lengthens the input. |
| Seqs.FilterConcat | src/index.tsx:665 | Filtering distributes over concatenation, so order is kept. |
| Seqs.FilterKeepsAll | src/index.tsx:665 | When every element passes, filtering changes nothing. |
| Seqs.FilterIdempotent | src/index.tsx:665 | Filtering twice by the same test is filtering once. |
| Seqs.DropIndexIsSlice | src/components/InteractionChecker.tsx:74 | Filtering out a position inside the list removes exactly that element; any other index removes nothing. |
| Seqs.FlatMap | src/components/InteractionChecker.tsx:133 | Every part is no longer than the `flatMap` result. |
| Seqs.FlatMapMember | src/components/InteractionChecker.tsx:133 | An element is in the `flatMap` result exactly when it is in some part. |
| Seqs.FlatMapConcat | src/components/InteractionChecker.tsx:133 | `flatMap` distributes over concatenation. |
| Text.TrimStartSpec | src/components/InteractionChecker.tsx:36 | Trimming the start keeps a suffix, drops only whitespace, and stops at a non-space. |
| Text.TrimEndSpec | src/components/InteractionChecker.tsx:36 | Trimming the end keeps a prefix, drops only whitespace, and stops at a non-space. |
| Text.TrimEmptyIffBlank | src/components/ReminderManager.tsx:70 | `!s.trim()` holds exactly for all-whitespace text; otherwise the trimmed text starts and ends with a non-space. |
| Text.TrimIdempotent | src/components/InteractionChecker.tsx:55-56 | Trimming twice is trimming once. |
| Text.SplitOnSpace | src/index.tsx:576 | `split(' ')` yields at least one field, and no field holds a space. |
| Text.FirstSpace | src/index.tsx:576 | The first space's position holds a space, and no earlier position does. |
| Text.SplitJoinRoundTrip | src/index.tsx:576 | Joining the fields with spaces gives the header back. |
| Text.FirstSpaceAfter | src/index.tsx:576 | In `a + " " + b`, with no space in `a`, the first space follows `a`. |
| Text.SplitOnSpaceCons | src/index.tsx:576 | Splitting `a + " " + b`, with no space in `a`, gives `a` and then the fields of `b`. |
| Text.DigitChar | src/index.tsx:527 | A digit value renders as a digit character. |
| Text.DigitValue | src/index.tsx:527 | A digit character reads as a value below ten. |
| Text.Decimal | src/index.tsx:527 | A count renders as a non-empty run of digits with no leading zero. |
| Text.DecimalRoundTrip | src/index.tsx:527 | Reading the rendering of a count gives the count back. |
| Signup.WithoutAMentionsNothing | src/index.tsx:156-162 | A message without the letter 'a' matches no test of the chain. |
| Signup.ReplacementsMentionNothing | src/index.tsx:157-163 | None of the four replacement texts matches any test. |
| Signup.FriendlySignupError | src/index.tsx:154-164 | The precedence is fixed: duplicate beats password, which beats email, which beats backend. An unmatched message is kept, and the kept message is the original exactly when no test matches. The result matches no test. |
| Signup.RewrittenUnique | src/index.tsx:154-164 | The precedence leaves exactly one admissible text per message. |
| Signup.RewrittenIdempotent | src/index.tsx:154-164 | Rewriting a shown text again leaves it unchanged. |
| Signup.HandleSignup | src/index.tsx:116-175 | A body that is not JSON gets a 500. An address in the user listing gets a 400 with the duplicate text, and no account is created. Otherwise the account is created: success carries the new id, and a rejection carries the rewritten text and the original message. |
| ReminderApi.RemindersKey | src/index.tsx:594 | The key is the prefix `reminders:` followed by the user id. |
| ReminderApi.RemindersKeyInjective | src/index.tsx:594 | Different users have different keys. |
| ReminderApi.BearerToken | src/index.tsx:576-580 | A token is found only in a present header, and it is non-empty and space-free. |
| ReminderApi.BearerTokenOfHeader | src/index.tsx:576 | `"<scheme> <token>"` yields the token. |
| ReminderApi.BearerTokenIgnoresRest | src/index.tsx:576 | Fields after the second are ignored. |
| ReminderApi.NoSpaceNoToken | src/index.tsx:576-580 | A header without a space carries no token. |
| ReminderApi.Authenticate | src/index.tsx:576-587 | No token gives 401 with the no-token text. A user is admitted exactly when there is a token and the provider returns a user for it, and then with that user's id. Any other refusal carries "Unauthorized". The same gate opens the list and delete routes (src/index.tsx:620-631, 648-659). |
| ReminderApi.AuthenticateWithoutToken | src/index.tsx:576-580 | Without a token the provider is never consulted: every provider gives the same no-token refusal. |
| ReminderApi.AuthenticateSpaceless | src/index.tsx:576-580 | A header without a space is refused with the no-token text, whatever the provider. |
| ReminderApi.KvStore.constructor | src/index.tsx:595 | The store starts with the given entries and an empty log. |
| ReminderApi.KvStore.Get | src/index.tsx:595 | A read returns the entry, or nothing when the key is absent; it changes no entry and logs the read. |
| ReminderApi.KvStore.Set | src/index.tsx:606 | A write replaces the one entry and logs the write. |
| ReminderApi.AfterCreateAppends | src/index.tsx:595-606 | Create appends exactly one record at the end of the user's list, an absent key counting as empty, and leaves every other key as it was. |
| ReminderApi.CreateLeavesOtherUsers | src/index.tsx:594-606 | Creating one user's reminder leaves every other user's list unchanged. |
| ReminderApi.RemoveByIdKeeps | src/index.tsx:665 | Delete keeps exactly the records whose id differs. |
| ReminderApi.RemoveByIdConcat | src/index.tsx:665 | Delete keeps the remaining records in their order. |
| ReminderApi.RemoveAbsentId | src/index.tsx:665 | Deleting an id that no record carries changes nothing. |
| ReminderApi.AfterDeleteIdempotent | src/index.tsx:662-666 | Deleting twice is deleting once. |
| ReminderApi.CreateThenDelete | src/index.tsx:595-606 | Deleting a reminder just created under a fresh id restores the list. |
| ReminderApi.CreateReminder | src/index.tsx:574-615 | Without a token, or when auth fails: 401, and the store is neither read nor written. A body that is not JSON: 500, store untouched. Otherwise the record with the given fields is appended under the user's key after one read and one write. |
| ReminderApi.ListReminders | src/index.tsx:618-643 | The store is unchanged. On 401 it is not read; otherwise the reply is the stored list, empty when absent, after one read of the user's key. |
| ReminderApi.DeleteReminder | src/index.tsx:646-675 | On 401 the store is neither read nor written. Otherwise the reply is success whether or not the id exists, and the user's list is filtered after one read and one write. |
| InteractionChecker.Names | src/components/InteractionChecker.tsx:89 | The request carries each product's name, position by position. |
| InteractionChecker.UniqueIngredientsSpec | src/components/InteractionChecker.tsx:133-134 | The summary has no duplicates and lists exactly the ingredients of the products. |
| InteractionChecker.UniqueIngredientsOrder | src/components/InteractionChecker.tsx:133-134 | The summary keeps the order of first occurrence across the products. |
| InteractionChecker.TwoDistinctMembers | src/components/InteractionChecker.tsx:278 | Two different ingredients in the summary make it at least two long. |
| InteractionChecker.SingleProductShowsButton | src/components/InteractionChecker.tsx:278 | One product with two different ingredients shows the check button, although the check refuses fewer than two products. |
| InteractionChecker.SharedIngredientHidesButton | src/components/InteractionChecker.tsx:278 | Two products sharing their only ingredient hide the button, although the check would run. |
| InteractionChecker.SeverityLabel | src/components/InteractionChecker.tsx:385 | high gives 높음 and medium gives 중간, each exactly; every other value gives 낮음. |
| InteractionChecker.Panel | src/components/InteractionChecker.tsx:313-358 | The safe panel appears exactly for 'safe', with the advice or a default when it is empty. Otherwise the title is 주의 필요 exactly for 'warning' and 확인 필요 for the rest, and the summary line is the count followed by its suffix. |
| InteractionChecker.AppendKeepsWellFormed | src/components/InteractionChecker.tsx:54-59 | A product from a trimmed non-blank input with some ingredients keeps every product non-blank and non-empty. |
| InteractionChecker.DropKeepsWellFormed | src/components/InteractionChecker.tsx:74 | Removing a product keeps that invariant. |
| InteractionChecker.WellFormedSummaryNonEmpty | src/components/InteractionChecker.tsx:82-83 | Under that invariant, a non-empty product list has a non-empty ingredient summary. |
| InteractionChecker.Checker.ShownPanel | src/components/InteractionChecker.tsx:310 | The result panel is shown exactly when the check completed and a result is stored. |
| InteractionChecker.Checker.AdviceShown | src/components/InteractionChecker.tsx:440 | The advice box appears only under a shown panel. When that panel is the safe one, the same advice is already its text, so it is shown twice. |
| InteractionChecker.Checker.constructor | src/components/InteractionChecker.tsx:27-33 | The screen starts with no product, empty input, no interactions, unchecked and no result. |
| InteractionChecker.Checker.SetInput | src/components/InteractionChecker.tsx:179 | Typing changes only the input. |
| InteractionChecker.Checker.AddProduct | src/components/InteractionChecker.tsx:35-71 | Blank input: nothing changes and nothing is sent. Otherwise the trimmed input is sent. An ok reply with ingredients appends the product with that name, clears the input and the checked flag; any other outcome leaves products, input and flag as they were. |
| InteractionChecker.Checker.RemoveProduct | src/components/InteractionChecker.tsx:73-76 | Exactly the element at the index is removed, the others stay in order, and the checked flag is cleared. |
| InteractionChecker.Checker.CheckInteractions | src/components/InteractionChecker.tsx:78-120 | Fewer than two products: nothing changes and nothing is sent. Otherwise the names are sent. An ok reply stores its interactions (none when absent) and the result, and sets the flag; any failure leaves the flag cleared and the results unchanged. |
| ReminderManager.DaysOfWeekDistinct | src/components/ReminderManager.tsx:14-22 | The form offers seven different weekdays. |
| ReminderManager.ToggledFlips | src/components/ReminderManager.tsx:140-152 | Toggling flips the membership of that day and of no other. |
| ReminderManager.ToggledKeepsOthers | src/components/ReminderManager.tsx:140-152 | The other days keep their order. |
| ReminderManager.ToggleAbsentTwice | src/components/ReminderManager.tsx:140-152 | Toggling an unselected day twice restores the list. |
| ReminderManager.ToggledNoDup | src/components/ReminderManager.tsx:140-152 | Toggling keeps the days free of duplicates. |
| ReminderManager.FilterNoDup | src/components/ReminderManager.tsx:144 | Filtering a list without duplicates leaves none. |
| ReminderManager.WeekdayLabel | src/components/ReminderManager.tsx:156 | The label of day `n` (0 is Sunday) is the form value at `(n + 6) % 7` of the Monday-first table. |
| ReminderManager.WeekdayLabelBijective | src/components/ReminderManager.tsx:156 | Different weekdays have different labels, and every form value labels some weekday. |
| ReminderManager.RemindersForDate | src/components/ReminderManager.tsx:161-164 | The selection holds exactly the reminders set for that weekday. |
| ReminderManager.RemindersForDateConcat | src/components/ReminderManager.tsx:161-164 | The selection keeps the reminders' order. |
| ReminderManager.HasReminderIffSomeDue | src/components/ReminderManager.tsx:155-164 | A date is marked exactly when its selection is non-empty. |
| ReminderManager.DefaultDraftNotSubmittable | src/components/ReminderManager.tsx:30-34 | The default draft, with no name, cannot be submitted. |
| ReminderManager.ToggledKeepsValid | src/components/ReminderManager.tsx:140-152 | Toggling a form value keeps the draft's days distinct form values. |
| ReminderManager.ValidDraftDaysOnCalendar | src/components/ReminderManager.tsx:156-163 | Every day of a valid draft is the calendar label of some weekday. |
| ReminderManager.DefaultDraftDays | src/components/ReminderManager.tsx:93-97 | The default draft selects every day once. |
| ReminderManager.Manager.constructor | src/components/ReminderManager.tsx:25-34 | The screen starts with no reminders, the default draft and the form closed. |
| ReminderManager.Manager.FetchReminders | src/components/ReminderManager.tsx:40-65 | An ok reply replaces the reminders (none when absent); any other outcome keeps them. A list request is logged. |
| ReminderManager.Manager.SetSupplement | src/components/ReminderManager.tsx:223 | Only the draft's name changes. |
| ReminderManager.Manager.SetTime | src/components/ReminderManager.tsx:237 | Only the draft's time changes. |
| ReminderManager.Manager.ToggleDay | src/components/ReminderManager.tsx:140-152 | Only the draft's days change, to their toggled form. |
| ReminderManager.Manager.ToggleAddForm | src/components/ReminderManager.tsx:204 | The form opens or closes; the draft is kept. |
| ReminderManager.Manager.CancelForm | src/components/ReminderManager.tsx:274 | The form closes, and the draft is kept. |
| ReminderManager.Manager.AddReminder | src/components/ReminderManager.tsx:67-109 | A draft with a blank name or no days is refused, and nothing is sent. Otherwise the draft is sent. On success the list is fetched again, the draft is reset to the default and the form closes; on failure nothing else changes. |
| ReminderManager.Manager.DeleteReminder | src/components/ReminderManager.tsx:111-138 | Without confirmation nothing happens. Otherwise the delete is sent, and on success the list is fetched again. |

## Left out

- The OpenAI calls of `recommend` and `check-interactions` (src/index.tsx:67-106, 329-369) are left out: network calls with non-deterministic output that the code passes through unchecked. The check's reply is therefore an input of `InteractionChecker.Checker.CheckInteractions`.
- The shopping and food-safety proxies and the debug environment route are left out; they are HTTP pass-throughs and environment reads.
- `supplement-info` is left out: it depends on a `supplementInfo` table that the file does not define, and on the key order of an object.
- `brandPatterns` in `extract-ingredients` is declared but never used, so it has no model.
- The key-value module `kv_store.tsx` is not part of this model. Its `get` and `set` are modelled as a map that never fails. The 500 replies the reminder routes give when the store throws are not modelled, nor are the messages "Internal server error during reminder fetch" and "Internal server error during reminder deletion".
- The authentication provider, the provider's user listing and account creation, `crypto.randomUUID` and `Date` are inputs, not models.
- The read-modify-write race between concurrent requests on the same list is left out; the model is sequential.
- JSON parsing is left out.
  - An absent (`None`) body stands for one that is not JSON, or is JSON `null`, so that destructuring it throws and the handler's catch answers 500.
  - A JSON object with missing fields is not represented. The source goes on with those fields undefined: create saves a reminder without supplement, time or days and answers success (src/index.tsx:589-610); signup goes on to the user listing and account creation (src/index.tsx:119-140).
  - Exception texts in `details` fields are not modelled: `Signup.HandleSignup` answers a malformed body with no `details`.
- A provider call that throws is not modelled; in the source it answers 500. Examples: `createUser` in signup throwing, and `getUser` answering `data: null`, whose destructuring throws (src/index.tsx:582, 626, 654).
- `Text.ToLower`: lower-cases ASCII letters only. JavaScript's `toLowerCase` also maps non-ASCII letters. No keyword of the lexicon contains one, and Hangul has no case. Not modelled: a non-ASCII character that lower-cases into an ASCII keyword letter. For example, U+212A KELVIN SIGN lower-cases to 'k', so in the source "Vitamin \u212A" yields 비타민K, while the model yields nothing for that character.
- `Text.Trim`: whitespace is the set JavaScript's `trim` removes, by code point. Surrogate pairs are not modelled.
- On the client, the following are left out:
  - loading flags, `alert` and `confirm` texts, console logging, and React effects (the mount-time fetch is the separate call `FetchReminders`);
  - styling, the calendar widget, `Date.getDay` (modelled as a weekday number 0..6), and the list/calendar view switch.
- InteractionChecker.Panel and InteractionChecker.SeverityLabel: the per-severity colour lookup beside the badge text (src/components/InteractionChecker.tsx:373-385) is left out. It crashes on a severity other than high, medium or low. `SeverityLabel` gives such a severity the 낮음 badge, but the source renders no badge for it, because the card fails first.
- The product suggestions that fill the input (InteractionChecker.tsx:122-131, 212) are plain `SetInput` calls and are not modelled separately.
- The presentational screens (recommendation, home, signup, login, symptom input, settings) and the app shell are left out.
