# Real-estate site: a Dafny model of its page logic

The site is a single-page React application for a real-estate brokerage. It has no
server: the catalogue is static seed data, and every behaviour lives in component state
and event handlers. This project models that logic and proves properties of it.

- **App shell** (`app.dfy`, module `App`). Which page `App` renders for its current view and
  selection. The compare list: toggling a property in or out, at most three entries,
  removal and clearing. `AppState` holds the component's state fields. Its methods update
  those fields the way the navigation and compare handlers do.
- **Listing page** (`listing.dfy`, module `Listing`). The price of a property is a display
  string such as "₹ 75 L". The page reads a number in lakhs from it: it keeps only digits
  and dots, applies `parseFloat`, and multiplies by 100 for "Cr". The page then filters the
  catalogue by type, maximum price and location.
- **Compare modal** (`compare_modal.dfy`, module `CompareModal`). The type chips, the
  collapsible amenities list, the "Read More" rule for long descriptions, and the fallbacks
  shown for missing fields.
- **Hero** (`hero.dfy`, module `Hero`). The slideshow step, the search tabs, the
  de-duplicated location suggestions, the project suggestions, and the state of the search
  boxes (`HeroSearch`).
- **Chat assistant** (`chat.dfy`, module `Chat`). The keyword classifier that picks a
  canned reply. The widget's state (`ChatSession`): sending ignores blank text, and each
  reply arrives later for the oldest unanswered message.
- **Property page** (`detail.dfy`, module `Detail`). The gallery and its wrap-around image
  cursor (`GalleryView`), and the strip of similar properties.
- **Admin dashboard** (`admin.dfy`, module `Admin`). The delayed login check against the
  fixed credentials, the add-property form, and the record a submission builds.
- **Shared modules.** `common.dfy` has the record types. `text.dfy` has ASCII lowercasing,
  substring search, JavaScript whitespace and decimal rendering. `seqs.dfy` has filter,
  subsequence and de-duplication. `catalogue.dfy` has the seed data of `constants.ts`.

How JavaScript behaviour is carried into the model:

- A JavaScript number, as far as the price filter sees it, is `Finite(real)` or `NaN`.
  `NaN > max` is false.
- An empty string is falsy and an empty array is truthy. So `p.description || d` replaces
  `""`, but `p.amenities || d` keeps `[]`.
- `App` renders `PropertyDetail` at a fixed place in its tree and without a `key`, so the
  page's state survives a change of its `property` prop.

Behaviour of the code worth knowing:

- The listing page stores the "Sort By" choice but never applies it. The visible list is
  always in catalogue order: `VisibleProperties` is a subsequence of the catalogue.
- A string with neither "Cr" nor "L" is worth 0. A string with a unit but no digit is
  NaN. Neither is ever over the price cap (`UnitlessPriceIsZero`, `DigitlessPriceIsNaN`).
- The compare list is keyed by property id, and toggling a listed id removes every entry
  with that id.

## Model

| member | source | states |
|---|---|---|
| Common.TypeNameInjective | types.ts:7 | Distinct property kinds have distinct names, so comparing names is comparing kinds |
| Text.TrimEmptyIffAllSpace | components/ChatWidget.tsx:40 | `trim()` yields the empty string exactly when every character is JavaScript whitespace |
| Listing.CleanPrice | components/PropertyListing.tsx:25 | Stripping every character except digits and dots never lengthens the string |
| Listing.CleanPriceConcat | components/PropertyListing.tsx:25 | The strip works character by character: it distributes over concatenation |
| Listing.ParseCleanedDecimal | components/PropertyListing.tsx:25-26 | `parseFloat` of a stripped price is non-negative, and is NaN exactly when there is no digit before or just after a leading dot |
| Listing.Hundredfold | components/PropertyListing.tsx:25 | Multiplying by 100 keeps NaN as NaN and scales a finite value |
| Listing.GetPriceValue | components/PropertyListing.tsx:24-28 | A price is never negative. With "Cr" anywhere in the string, the parsed digits are multiplied by 100, whether or not "L" also occurs. Otherwise, with "L", the parsed digits are the value. With neither unit the value is 0 |
| Listing.ParseOfRenderedNat | components/PropertyListing.tsx:25-26 | The decimal digits of a whole number parse back to that number |
| Listing.CleanOfRenderedNat | components/PropertyListing.tsx:25-26 | Around a number, text without digits or dots is stripped away and the number remains |
| Listing.LakhPrice | components/PropertyListing.tsx:26 | "₹ n L" is worth n lakhs for every whole n |
| Listing.CrorePrice | components/PropertyListing.tsx:25 | "₹ n Cr" is worth 100·n lakhs for every whole n |
| Listing.LeadingDigitsOfRun | components/PropertyListing.tsx:25-26 | `parseFloat` reads a run of digits up to the first non-digit |
| Listing.ParseOfDecimal | components/PropertyListing.tsx:25-26 | A numeral `w.f` with at least one digit parses to its decimal value |
| Listing.CleanOfNumeral | components/PropertyListing.tsx:25 | The strip leaves a numeral `w.f` as it is |
| Listing.CleanOfDecimal | components/PropertyListing.tsx:25 | Around a numeral `w.f`, text without digits or dots is stripped away |
| Listing.DecimalLakhPrice | components/PropertyListing.tsx:26 | "₹ w.f L" is worth w.f lakhs for any digit strings w and f |
| Listing.DecimalCroreValue | components/PropertyListing.tsx:25 | "₹ w.f Cr" is worth 100 times w.f lakhs for any digit strings w and f |
| Listing.HalfLakhPrice | components/PropertyListing.tsx:26 | "₹ 45.5 L" is worth 45.5 lakhs |
| Listing.DecimalCrorePrice | components/PropertyListing.tsx:25 | "₹ 1.2 Cr" is worth 120 lakhs |
| Listing.LakhLiteral | components/PropertyListing.tsx:26 | Any string of the form "₹ n L" is worth n |
| Listing.UnitlessPriceIsZero | components/PropertyListing.tsx:27 | A string holding neither a 'C' nor an 'L' is worth 0 |
| Listing.PriceOnRequestIsZero | components/PropertyListing.tsx:27 | "Price on Request" is worth 0 |
| Listing.DigitlessPriceIsNaN | components/PropertyListing.tsx:25-36 | A unit without a digit reads as NaN, which no price cap excludes |
| Listing.CleanOfTwoRuns | components/PropertyListing.tsx:25 | Two runs of digits separated by other text are stripped down to the two runs joined together |
| Listing.CroreDigits | components/PropertyListing.tsx:25 | With "Cr" present, all the digits of the string are read together as crores |
| Listing.MixedUnitsUseCrore | components/PropertyListing.tsx:25 | "₹ 1 Cr 50 L" is read as 150 crores (15000 lakhs), not 1.5 crores |
| Listing.VisibleProperties | components/PropertyListing.tsx:30-42 | Catalogue order is kept; every entry meets the type, price and location tests; every catalogue entry meeting them is shown, as often as it occurs |
| Listing.DefaultFiltersCapPriceOnly | components/PropertyListing.tsx:14-18 | With the initial or reset settings, only the 200-lakh price cap filters |
| Listing.SeedPricesAllowed | constants.ts:24-125 | Every seed price is at most 200 lakhs |
| Listing.DefaultListsWholeCatalogue | components/PropertyListing.tsx:30-42 | With the default settings the whole catalogue is listed, in order |
| App.WithoutId | App.tsx:113 | Removing an id leaves no entry with that id, keeps every other entry with its multiplicity, and keeps the order |
| App.Toggled | App.tsx:108-121 | A listed id is removed. A new id is appended below the cap. At the cap the list is unchanged |
| App.ToggleFlips | App.tsx:108-123 | An accepted toggle flips `isCompared` for that id |
| App.RejectedToggleKeepsList | App.tsx:115-118 | A refused toggle changes nothing |
| App.FilterKeepsDistinctIds | App.tsx:113 | Filtering a list with distinct ids keeps the ids distinct |
| App.WithoutIdKeepsInvariant | App.tsx:134 | Removal keeps "at most three, distinct ids" |
| App.ToggleKeepsInvariant | App.tsx:108-121 | A toggle keeps "at most three, distinct ids" |
| App.ApplyKeepsInvariant | App.tsx:108-135 | Toggle, remove and clear each keep the invariant |
| App.RunKeepsInvariant | App.tsx:108-135 | Any sequence of those operations keeps the invariant |
| App.ReachableListsKeepInvariant | App.tsx:27 | Every compare list reachable from the empty start has at most three entries with distinct ids |
| App.Render | App.tsx:169-211 | The blog page shows exactly when the view is the blog and a blog is selected. The listing shows exactly for the listing view. The detail page shows exactly when the view is the detail view and a property is selected. The home page shows otherwise |
| App.AppState.constructor | App.tsx:17-28 | The app starts on the home view with nothing selected, an empty compare list and both modals closed |
| App.AppState.ToggleCompare | App.tsx:108-121 | The list becomes its toggled form. The notice is raised exactly on a refused toggle. Nothing else changes |
| App.AppState.RemoveCompared | App.tsx:134 | The modal's remove drops that id and keeps the invariant |
| App.AppState.ClearCompared | App.tsx:135 | Clearing empties the list |
| App.AppState.GoHome | App.tsx:31-36 | The view becomes home, both selections are dropped, and the home page is rendered |
| App.AppState.GoToDetails | App.tsx:38-42 | That property is selected and its detail page is rendered |
| App.AppState.GoToListing | App.tsx:44-47 | Only the view changes, and the listing is rendered |
| App.AppState.GoToBlog | App.tsx:49-53 | That entry is selected and its blog page is rendered |
| App.AppState.SetCompareModalOpen | App.tsx:130-163 | Opening the compare modal hides the floating compare bar |
| App.AppState.SetLeadModalOpen | App.tsx:98-105 | Only the lead form's open flag changes |
| CompareModal.FilterByType | components/CompareModal.tsx:70-74 | "All" keeps every column. "Plot" keeps plots, residential and commercial properties. Any other chip keeps its own type. Order is kept |
| CompareModal.FilterByTypeIdempotent | components/CompareModal.tsx:70-74 | Applying a chip to its own result changes nothing |
| CompareModal.PlotChipWidens | components/CompareModal.tsx:72 | The "Plot" chip keeps every property whose type is Plot |
| CompareModal.ShownAmenities | components/CompareModal.tsx:40 | Expanded shows every amenity. Collapsed shows the first four, or all when there are fewer |
| CompareModal.ShortListNeverCollapses | components/CompareModal.tsx:39-40 | Without an expand button, collapsing hides nothing |
| CompareModal.AmenitiesToggleLabel | components/CompareModal.tsx:50-57 | The button exists exactly for more than four amenities and reads "Show Less" or "+k more" |
| CompareModal.CollapsedLabelCountsHidden | components/CompareModal.tsx:55 | The number k in "+k more" is exactly the number of hidden amenities |
| CompareModal.DescriptionToggleLabel | components/CompareModal.tsx:16-28 | The button exists exactly for texts over 100 characters and reads "Show Less" exactly when expanded |
| CompareModal.AmenitiesOf | components/CompareModal.tsx:226 | An absent list becomes the default entry, and a present list, even an empty one, is shown as it is |
| CompareModal.DefaultAmenitiesFit | components/CompareModal.tsx:226 | A property without amenities shows the single default entry and no expand button |
| Common.OrElse | components/CompareModal.tsx:248 | An absent or empty string is replaced by the fallback, and any other string is kept |
| CompareModal.DescriptionOf | components/CompareModal.tsx:248 | The description cell is never empty. A non-empty description is shown as it is. An absent or empty one shows the default text |
| CompareModal.DefaultDescriptionFits | components/CompareModal.tsx:248 | The default description needs no "Read More" button |
| CompareModal.SizeOf | components/CompareModal.tsx:215 | The size cell is never empty. A non-empty size is shown as it is. An absent or empty size reads "N/A" |
| CompareModal.StatusOf | components/CompareModal.tsx:237 | The status cell is never empty. A non-empty status is shown as it is. An absent or empty status reads "For Sale" |
| Hero.TabProperties | components/Hero.tsx:49-56 | Each tab keeps exactly its kinds. "Villa/Bungalow" keeps villas and bungalows, "Residential" keeps residential properties and plots, "Commercial" keeps commercial ones. "Buy" and any other tab keep everything. Order is kept |
| Hero.BuyOffersEverything | components/Hero.tsx:47-51 | The "Buy" tab offers the whole catalogue |
| Hero.LocationNames | components/Hero.tsx:62 | The names of the top locations, in order |
| Hero.PropertyLocations | components/Hero.tsx:63 | The locations of the offered properties, in order |
| Hero.AvailableLocations | components/Hero.tsx:61-64 | No suggestion repeats. A location is suggested exactly when it is a candidate containing the query, ignoring case. Suggestions follow the order of first occurrence |
| Hero.EmptyLocationQueryKeepsAll | components/Hero.tsx:61-64 | An empty query suggests every candidate once |
| Hero.TopLocationsFirst | components/Hero.tsx:61-64 | Top locations are suggested before any other location |
| Hero.SelectedLocationStaysSuggested | components/Hero.tsx:73-76 | A picked location is still suggested for its own text |
| Hero.FilteredProjects | components/Hero.tsx:67-71 | A project is suggested exactly when its title or location contains the query, ignoring case. Order is kept |
| Hero.EmptyProjectQueryKeepsAll | components/Hero.tsx:67-71 | An empty query suggests every offered property |
| Hero.SelectedProjectStaysSuggested | components/Hero.tsx:78-84 | A picked project is still suggested for its own title |
| Hero.NextSlide | components/Hero.tsx:26 | The next slide is in range: one on, or back to 0 after the last |
| Hero.SlideAfterAdd | components/Hero.tsx:24-29 | a ticks then b ticks equal a + b ticks |
| Hero.SlideAfterBelowEnd | components/Hero.tsx:24-29 | Before the end of the show, each tick moves one slide on |
| Hero.SlidesCycle | components/Hero.tsx:24-29 | After as many ticks as there are slides, the show is back where it started |
| Hero.HeroSearch.constructor | components/Hero.tsx:13-18 | The hero starts on slide 0 and the "Buy" tab, with empty boxes and closed dropdowns |
| Hero.HeroSearch.AdvanceSlide | components/Hero.tsx:24-29 | A tick moves to the next slide and keeps the slide in range |
| Hero.HeroSearch.SelectTab | components/Hero.tsx:122 | A tab click empties both boxes, so every candidate of the new tab is suggested again |
| Hero.HeroSearch.TypeLocation | components/Hero.tsx:144 | Typing sets the location query and opens its dropdown |
| Hero.HeroSearch.TypeProject | components/Hero.tsx:178 | Typing sets the project query and opens its dropdown |
| Hero.HeroSearch.FocusBox | components/Hero.tsx:145 | Focusing a box opens its dropdown and leaves the queries alone |
| Hero.HeroSearch.SelectLocation | components/Hero.tsx:73-76 | A picked location fills the box, closes the dropdown and stays suggested |
| Hero.HeroSearch.SelectProject | components/Hero.tsx:78-84 | A picked project's title fills the box, the dropdown closes, and the project is handed on |
| Hero.HeroSearch.ClickOutside | components/Hero.tsx:33-39 | A click outside a box closes exactly that box's dropdown |
| Chat.Classify | components/ChatWidget.tsx:55-68 | A chosen topic is one the lowercased text mentions. The generic reply comes only when no keyword group is mentioned |
| Chat.FirstMentionedIsEarliest | components/ChatWidget.tsx:58-68 | The reference reading picks the earliest mentioned group |
| Chat.FirstMentionedNone | components/ChatWidget.tsx:55 | With no group mentioned, the reference reading is the generic reply |
| Chat.ClassifyIsFirstMentioned | components/ChatWidget.tsx:57-68 | The else-if chain equals "the first group, in the fixed order, whose keyword the lowercased text contains" |
| Chat.ClassifyIgnoresCase | components/ChatWidget.tsx:57 | A message and its lowercased form get the same reply |
| Chat.PriceOfPlotIsAboutPrice | components/ChatWidget.tsx:58 | "price of a plot" gets the price reply, since price is tried first |
| Chat.NoKeywordLetters | components/ChatWidget.tsx:57-68 | A text without 'c', 'l' and 'h' gets the generic reply |
| Chat.ViewPropertiesIsUnmatched | components/ChatWidget.tsx:83 | The "View Properties" quick option gets the generic reply |
| Chat.OnlyCallMentioned | components/ChatWidget.tsx:66 | A text containing "call" and lacking the letters of every earlier group gets the contact reply |
| Chat.RequestCallbackIsAboutContact | components/ChatWidget.tsx:84 | The "Request Callback" quick option gets the contact reply |
| Chat.QuickOptionsHiddenAfterFirstExchange | components/ChatWidget.tsx:158 | The quick options show after the first question and disappear once its answer arrives |
| Chat.ChatSession.constructor | components/ChatWidget.tsx:13-19 | The chat starts closed and idle, with the two greetings |
| Chat.ChatSession.ToggleOpen | components/ChatWidget.tsx:203 | The floating button flips the window open or closed |
| Chat.ChatSession.Close | components/ChatWidget.tsx:109 | The header button closes the window |
| Chat.ChatSession.SetInput | components/ChatWidget.tsx:178 | Typing sets the input |
| Chat.ChatSession.Send | components/ChatWidget.tsx:39-52 | Blank text changes nothing. Other text is appended as a user message, clears the input, shows the typing indicator and queues a reply. The greetings stay first |
| Chat.GreetedAppend | components/ChatWidget.tsx:49 | Appending to the transcript keeps the greetings at its start |
| Chat.ChatSession.Post | components/ChatWidget.tsx:42-51 | A non-blank text is appended as a user message, the input is cleared, the typing indicator shows and a reply is queued |
| Chat.ChatSession.SendInput | components/ChatWidget.tsx:179-184 | Enter and the send button send the current input |
| Chat.ChatSession.SendQuickOption | components/ChatWidget.tsx:158-163 | A quick option, shown while the transcript has fewer than four messages, always sends its own text |
| Chat.ChatSession.DeliverReply | components/ChatWidget.tsx:54-79 | The reply for the oldest queued text is appended and the typing indicator goes off |
| Detail.GalleryImages | components/PropertyDetail.tsx:25-27 | The gallery is never empty: the image list when it has entries, else the single image |
| Detail.NextIndex | components/PropertyDetail.tsx:31 | From a valid index, "next" stays valid: one on, or back to 0 after the last |
| Detail.PrevIndex | components/PropertyDetail.tsx:36 | From a valid index, "previous" stays valid: one back, or to the last from 0 |
| Detail.ArrowsAreInverse | components/PropertyDetail.tsx:29-37 | On a valid index the two arrows undo each other |
| Detail.SingleImageArrowsStay | components/PropertyDetail.tsx:95 | With one image both arrows would stay put |
| Detail.NextNeverWrapsFromOutside | components/PropertyDetail.tsx:31 | From an index past the end of a gallery with arrows, "next" never comes back into range |
| Detail.SimilarFrom | components/PropertyDetail.tsx:218 | At most two properties, none with the current id, the first ones of the filtered popular list |
| Detail.SimilarKeepsOrder | components/PropertyDetail.tsx:218 | The similar strip keeps the popular list's order |
| Detail.SimilarToFirstPopular | components/PropertyDetail.tsx:218 | On the first popular property's page the strip shows the second and third |
| Detail.GalleryView.constructor | components/PropertyDetail.tsx:22 | The cursor starts on the first image |
| Detail.GalleryView.CurrentImage | components/PropertyDetail.tsx:65 | The main image exists exactly when the cursor is inside the gallery |
| Detail.GalleryView.NextImage | components/PropertyDetail.tsx:29-32 | The right arrow, shown for more than one image, steps the cursor and keeps a valid cursor valid |
| Detail.GalleryView.PrevImage | components/PropertyDetail.tsx:34-37 | The left arrow, shown for more than one image, steps the cursor back and keeps a valid cursor valid |
| Detail.GalleryView.SelectImage | components/PropertyDetail.tsx:110-120 | An indicator click, possible for more than one image, points the cursor at that image |
| Detail.GalleryView.ShowProperty | components/PropertyDetail.tsx:22 | A new property arrives and the cursor is kept, as written |
| Detail.GalleryView.ShowPropertyReset | components/PropertyDetail.tsx:22 | Corrected: a new property resets the cursor to the first image, and the cursor is valid |
| Detail.StaleIndexOutOfRange | components/PropertyDetail.tsx:22-122 | The fourth image of a four-image property, kept for a one-image property, is out of range, and the second page draws no arrow or indicator to recover |
| Detail.SeedStaleIndex | components/PropertyDetail.tsx:22-122 | The same happens on the seed data: p1 is in h1's similar strip and has one image and no controls |
| Admin.WithField | components/AdminDashboard.tsx:237-287 | A field edit replaces that field and no other |
| Admin.BuildProperty | components/AdminDashboard.tsx:169-180 | Every non-empty field is kept. Each empty field gets its fallback. The record is "For Sale" and not featured. The image list holds the uploaded image or nothing |
| Admin.DistinctTimesDistinctIds | components/AdminDashboard.tsx:170 | Submissions at different times get different ids |
| Admin.NewPropertyGallery | components/AdminDashboard.tsx:175-179 | An added property's gallery is its single image: the upload or the placeholder |
| Admin.EmptyDescriptionShowsDefault | components/AdminDashboard.tsx:176 | An added property with an empty description shows the default description in the compare table |
| Admin.NoUploadShowsPlaceholder | components/AdminDashboard.tsx:175-179 | A submission without an upload stores no image list, and its page shows the placeholder as its only image |
| Admin.AdminSession.constructor | components/AdminDashboard.tsx:18-33 | The dashboard starts logged out, idle, on the list tab, with the empty form |
| Admin.AdminSession.EditUsername | components/AdminDashboard.tsx:104 | Typing a username clears the error |
| Admin.AdminSession.EditPassword | components/AdminDashboard.tsx:120 | Typing a password clears the error |
| Admin.AdminSession.BeginLogin | components/AdminDashboard.tsx:38-42 | A login clears the error, shows the spinner and captures the credentials typed so far |
| Admin.AdminSession.CompleteLogin | components/AdminDashboard.tsx:44-52 | The captured credentials log in exactly when both are "admin". Otherwise the error message is set. The spinner stops |
| Admin.AdminSession.SelectTab | components/AdminDashboard.tsx:198-204 | Only the active tab changes |
| Admin.AdminSession.EditField | components/AdminDashboard.tsx:237-287 | A form edit changes that field only |
| Admin.AdminSession.EditType | components/AdminDashboard.tsx:270-276 | The type select changes the type only |
| Admin.AdminSession.Submit | components/AdminDashboard.tsx:167-185 | The handed-on record is built from the form. The dashboard returns to the list with an empty form |

## Left out

- Timers are events, not clocks. The five-second lead popup, the hero's five-second
  interval, the chat's 1.5-second reply delay and the admin's 0.8-second login delay become
  explicit operations: `SetLeadModalOpen`, `AdvanceSlide`, `DeliverReply` and
  `CompleteLogin`.
- `Date.now()` and clock strings are left out. The submission time is a parameter of
  `Submit`, and the chat's message ids and times are not modelled.
- Scrolling, focusing, and the mobile menu are plain DOM effects with no state of the
  core, so they are left out. So are the right-click and DevTools key blocking in `App.tsx`
  and `alert`.
- The compare-limit `alert` is modelled as the `rejected` result of `ToggleCompare`.
- `FileReader` is left out: `EditField(ImageField, ...)` receives the data URL once it has
  been read.
- The admin dashboard's `onAddProperty`, `onDeleteProperty` and `onLogout` are callbacks
  into a parent. `App.tsx` does not render the dashboard, so its property list and the
  delete and logout actions are left out.
- Strings are sequences of code points. JavaScript's `length` counts UTF-16 units, so
  `ShouldTruncate` differs for text outside the Basic Multilingual Plane.
- Lowercasing covers ASCII letters only.
- The listing page's "Sort By" selector stores a value that nothing reads, so no ordering is
  modelled.
- The property page's text fallbacks (size, description, amenities) and its map, video and
  enquiry sections are left out.
- The compare modal's quick-view panel (its own fallbacks and the first six amenities) is
  left out.
- `BlogDetail`, `Carousel`, `LeadGenModal`, `FloatingWidget` and `SectionHeader` are not
  part of this model.
- Listing.GetPriceValue: the value is the exact decimal, not the nearest double, and the
  multiplication by 100 is exact. So a price that double rounding would push just over
  the cap is kept here. An example is "₹ 0.55 Cr": the page computes 55.00000000000001
  and hides it under a cap of 55, while the model gives exactly 55.
- `ParseCleanedDecimal` models `parseFloat` only on strings of digits and dots. Those are
  the only strings `getPriceValue` hands it. Exponents and signs cannot occur there.
- `ChatWidget`, `LeadGenModal` and `CompareModal` are rendered through `CommonWidgets`, a
  component defined inside `App` (App.tsx:126). Every render of `App` makes a new component
  type, so React remounts these widgets whenever `App`'s state changes. Such changes include
  the lead popup's timer, any compare toggle and any navigation. `Chat.ChatSession` follows
  one mounted instance and does not capture that reset. The reset empties the transcript
  back to the greetings, closes the window and drops pending replies. It also resets the
  compare modal's chip and expanded flags, which the model takes as parameters.
- `Admin.AdminSession.Submit` requires a non-empty title, price and location, as the
  inputs' `required` attributes do. A value made of spaces passes both checks.

## Findings

| source | as written | input that shows it | evidently intended | confidence | as-written member | corrected member |
|---|---|---|---|---|---|---|
| components/PropertyDetail.tsx:22 | The image cursor is component state that is never reset. Opening another property from the similar strip keeps the old cursor, even past the end of the new gallery | View the fourth image of h1 (four images), then open p1 (one image) from the strip. The cursor is 3, so there is no main image, and no arrow or dot is shown to recover | Reset the cursor to 0 when the property changes | not executed | Detail.GalleryView.ShowProperty, Detail.StaleIndexOutOfRange | Detail.GalleryView.ShowPropertyReset |
