# Portfolio site logic, modelled in Dafny

This project models the logic inside Ibrahim El Khalil's portfolio site.
The site has a React front end and a Python back end; most of both is
presentation and network plumbing. The models cover the pieces that make
decisions:

- the skills pop-up's search, proficiency bands, icons and skill counts;
- the ventures carousel's wrap-around paging;
- the three blog views:
  - the public blog page;
  - the portfolio's blog section;
  - the admin blog table, with its filters, category buttons, status badges,
    saving, deleting and AI drafting;
- the two appointment-booking widgets and their three-step wizard over
  the business days of the next thirty days;
- the admin dashboard's login, edit modal and per-section save dispatch;
- the two chat windows:
  - the JavaScript one, with typed suggestions, submitting and the
    streamed answer;
  - the TypeScript one, with the role history, the streamed last message,
    the `[SUGGESTIONS]` split and closing with confirmation;
- the front-end chat service: its five-minute instruction cache, the system
  instruction, and the word-by-word replay of a reply;
- the back end's memory service: its availability guards, the context
  paragraph built from recalled memories, and its process-wide instance;
- the loading screen's step counter, in its capped (App.js) and uncapped
  (App.tsx) forms;
- the back end's record types and their defaults.

The code follows the source's own form, file by file:

- Components whose state is updated in place are classes. Their handlers are
  methods with `modifies` clauses that state the whole new state.
- Pure filters and formatting are functions, with lemmas about them.
- Loops are methods proved against those functions. These are the date
  generation, the chunk streaming and the context formatting.
- Browser services, the network, the clock and the memory store are not
  modelled. Each call into them becomes a parameter that says what the call
  answered:
  - `Fetch` or `apiOk` for the API;
  - `Call` for the memory store;
  - `now` for the clock;
  - `confirmed` for `window.confirm`;
  - `parsed` for `JSON.parse`;
  - `chunks` for the stream.

Modules: `Wrappers`, `Text` and `Seqs` hold shared helpers for strings and
sequences; `Models` holds the record types; every other module models one
source file, except `BlogFeed` and `Booking`, which hold what two source
files share.

## Model

Specification functions that carry no contract of their own (`SkillsPopup.FilteredSkills`, `AiChatWidget.SuggestionsFor`, `BlogPage.FilteredBlogs`, `BlogSection.FilteredBlogs`, `BlogFeed.UniqueCategories`, `Booking.BusinessOffsets`, `Booking.IsBusinessDay`, `ChatSession.FinalAnswer`, `Loader.StepAfter`, `Mem0Service.NumberedLines`, `Mem0Service.LineFor`, `GeminiService.CacheFresh`, `AdminDashboard.SaveSucceeds`) have no row. The lemma or method that states what each of them means does: the `…Facts` lemma beside it, `StepAfterTicks`, `NumberedLinesMembers`, `FreshForFiveMinutes`, `FinishReply` and `HandleSaveFromModal`.

| member | source | states |
|---|---|---|
| SkillsPopup.NarrowCategoryFacts | frontend/src/components/SkillsPopup.js:14-19 | a narrowed category keeps its id and name and an order-preserving subsequence of its skills; a skill is kept exactly when its name or the category name includes the term, ignoring case; a category whose name matches comes back whole |
| SkillsPopup.BlankSearchShowsAll | frontend/src/components/SkillsPopup.js:10-12 | a term that trims to the empty string shows the full category list unchanged |
| SkillsPopup.FilteredSkillsFacts | frontend/src/components/SkillsPopup.js:14-20 | for a non-blank term, the result has no empty category; it is an order-preserving subsequence of the narrowed categories; it holds every narrowed category that still has a skill, and only narrowings of real categories; a matching category that has skills appears unchanged |
| SkillsPopup.SkillKeptWhenMatches | frontend/src/components/SkillsPopup.js:14-19 | a skill that matches the untrimmed term is shown, under a category with the same id and name |
| SkillsPopup.ShownSkillsComeFromData | frontend/src/components/SkillsPopup.js:14-20 | every shown skill comes unaltered from a category of the data with the same id and name, and matches the term |
| SkillsPopup.DroppingEmptyKeepsSum | frontend/src/components/SkillsPopup.js:129 | dropping the empty categories leaves the summed skill count unchanged |
| SkillsPopup.SumOfNarrowed | frontend/src/components/SkillsPopup.js:129 | the summed size of the narrowed categories is the number of matching skills |
| SkillsPopup.FoundCountIsMatchingSkills | frontend/src/components/SkillsPopup.js:129 | the "Found N skills" figure is exactly the number of skills of the data that match the term |
| SkillsPopup.ProficiencyBand | frontend/src/components/SkillsPopup.js:24-39 | Expert iff level ≥ 90; Advanced iff 80 ≤ level < 90; Proficient iff 70 ≤ level < 80; Intermediate iff 60 ≤ level < 70; Beginner iff level < 60 |
| SkillsPopup.ProficiencyLabel | frontend/src/components/SkillsPopup.js:24-30 | the label is the label of the level's band |
| SkillsPopup.ProficiencyColor | frontend/src/components/SkillsPopup.js:33-39 | the colour is the colour of the same band, so label and colour always agree |
| SkillsPopup.BandsAreDistinguishable | frontend/src/components/SkillsPopup.js:24-39 | two bands have the same label iff they are the same band, and the same colour iff they are the same band |
| SkillsPopup.SkillIcon | frontend/src/components/SkillsPopup.js:42-70 | one of the 20 listed names gets its own glyph, never the gear; a key inherited from `Object.prototype` (`constructor`, `toString`, …) gets that inherited member, which is truthy, so not the gear; any other name gets '⚙️' |
| Ventures.TotalPages | frontend/src/components/Ventures.tsx:37-39 | the fewest pages of three that hold all items (the ceiling of count / 3) |
| Ventures.NextIndex | frontend/src/components/Ventures.tsx:41-43 | stays in range; moves one page forward; the last page wraps to 0 |
| Ventures.PrevIndex | frontend/src/components/Ventures.tsx:45-47 | stays in range; moves one page back; page 0 wraps to the last page |
| Ventures.NextPrevInverse | frontend/src/components/Ventures.tsx:41-47 | back after forward, and forward after back, return to the same page |
| Ventures.Page | frontend/src/components/Ventures.tsx:49-50 | at most three items: exactly items [3i, min(3i+3, len)), or none past the end |
| Ventures.PagesBeforeIsPrefix | frontend/src/components/Ventures.tsx:49-50 | pages 0 .. k-1, in order, are the first min(3k, len) items |
| Ventures.PagesCoverAllItems | frontend/src/components/Ventures.tsx:39-50 | walking through all pages shows the whole list once, in order |
| Ventures.Carousel.constructor | frontend/src/components/Ventures.tsx:36 | the carousel starts on page 0 |
| Ventures.Carousel.NextVentures | frontend/src/components/Ventures.tsx:41-43 | the index becomes `NextIndex`; it is callable only when there is more than one page, as the arrows are, so no modulo by zero is reachable |
| Ventures.Carousel.PrevVentures | frontend/src/components/Ventures.tsx:45-47 | the index becomes `PrevIndex`, under the same guard |
| Ventures.Carousel.GoToPage | frontend/src/components/Ventures.tsx:80-83 | the dot of page k sets the index to exactly k |
| BlogFeed.StatusParam | frontend/src/components/BlogPage.js:28 | the status sent is null iff the filter is 'all', otherwise the filter itself |
| BlogFeed.CategoryNames | frontend/src/components/BlogPage.js:33 | one name per blog whose category is present and non-empty, in the blogs' order and with repetitions; none is empty |
| BlogFeed.UniqueCategoriesFacts | frontend/src/components/BlogPage.js:33 | the category buttons are distinct, never empty or missing, name every category some blog has, and follow the order in which each first appears among the blogs' categories |
| BlogFeed.AfterFetch | frontend/src/components/BlogPage.js:25-40 | a failed request changes nothing; a null answer empties the list and keeps the old categories, because `null.map` throws; a list is stored with its categories |
| BlogFeed.ShownDate | frontend/src/components/BlogPage.js:301 | the published date when truthy, else the creation date |
| BlogFeed.FormatDate | frontend/src/components/BlogPage.js:52-56 | '' for a missing or empty date, otherwise the locale rendering |
| BlogPage.FilteredBlogsFacts | frontend/src/components/BlogPage.js:58-66 | an order-preserving subsequence holding exactly the blogs whose title, excerpt or content includes the term, ignoring case, and that pass the all / published / category filter |
| BlogPage.TextlessBlogNeverListed | frontend/src/components/BlogPage.js:59-61 | a blog with no title, excerpt or content is never listed, even for an empty search |
| BlogPage.EmptySearchListsAll | frontend/src/components/BlogPage.js:58-66 | with an empty search and 'all', every blog that has some text is listed |
| BlogPage.PageView | frontend/src/components/BlogPage.js:69 | the single article shows iff a blog id is routed and a blog is loaded; otherwise the skeleton shows iff loading, then the filtered list or the empty message |
| BlogPage.BlogPageState.constructor | frontend/src/components/BlogPage.js:6-13 | the initial state: loading, filter 'all', nothing selected, empty search |
| BlogPage.BlogPageState.LoadBlogs | frontend/src/components/BlogPage.js:25-40 | sends `StatusParam(filter)`; the listing becomes `AfterFetch`; loading is over |
| BlogPage.BlogPageState.LoadBlog | frontend/src/components/BlogPage.js:42-50 | a fetched blog becomes the selection; a failure keeps it and navigates back |
| BlogPage.BlogPageState.SetFilter | frontend/src/components/BlogPage.js:235 | a filter button sets the filter and nothing else |
| BlogGrid.Cards | frontend/src/components/Blog.js:152 | the first six posts, in order (all of them when there are fewer) |
| BlogGrid.CardTags | frontend/src/components/Blog.js:231-233 | a prefix of the post's tags of length min(3, number of tags), so all of them when it has fewer than three; none when it has no tag list |
| BlogGrid.BlogGridState.constructor | frontend/src/components/Blog.js:6-11 | the initial state: loading, filter 'all', modal closed |
| BlogGrid.BlogGridState.LoadBlogs | frontend/src/components/Blog.js:17-32 | the same request and listing effect as the blog page |
| BlogGrid.BlogGridState.OpenBlog | frontend/src/components/Blog.js:34-42 | success selects the fetched post and opens the modal; failure changes nothing |
| BlogGrid.BlogGridState.CloseModal | frontend/src/components/Blog.js:44-47 | the modal closes and the selection is cleared |
| BlogSection.FilteredBlogsFacts | BlogSectionClean.js:86-92 | an order-preserving subsequence holding exactly the posts whose title, excerpt or category includes the term, ignoring case, and whose status passes the status filter |
| BlogSection.StatusColor | BlogSectionClean.js:94-101 | green iff published, yellow iff draft, the same gray for archived and any other or missing status |
| BlogSection.FormatDate | BlogSectionClean.js:103-110 | 'Not set' for a missing or empty date, otherwise the locale rendering |
| BlogSection.SaveCall | BlogSectionClean.js:34-40 | update with the editing post's id iff that id is truthy, otherwise create |
| BlogSection.Draft | BlogSectionClean.js:70-74 | the generated fields with the category forced to the chosen one and the status to 'draft' |
| BlogSection.BlogSectionState.constructor | BlogSectionClean.js:2-14 | the initial state: the given posts, no editor, no AI modal |
| BlogSection.BlogSectionState.LoadBlogs | BlogSectionClean.js:20-30 | stores `data \|\| []`; a failure keeps the old list; loading is over |
| BlogSection.BlogSectionState.OpenEditor | BlogSectionClean.js:137-138 | the editor opens on the given post, or on nothing for a new one |
| BlogSection.BlogSectionState.HandleSave | BlogSectionClean.js:32-47 | makes the `SaveCall` call; success closes the editor, clears the post, reloads and reports; an error leaves both unchanged |
| BlogSection.BlogSectionState.HandleDelete | BlogSectionClean.js:49-59 | no confirmation, no call and no change; otherwise the post is deleted and the outcome reported |
| BlogSection.BlogSectionState.HandleGenerateWithAI | BlogSectionClean.js:61-83 | an empty topic reports an error and requests nothing; otherwise the draft replaces the AI modal in the editor, or an error is reported; generating is off afterwards |
| Booking.BusinessOffsetsFacts | frontend/src/components/AppointmentBooking.js:20-35 | the kept offsets are strictly increasing and are exactly the business days among 1 .. n |
| Booking.WeekPeriodic | frontend/src/components/AppointmentBooking.js:25 | a week later has the same weekday test |
| Booking.WeekHasFiveBusinessDays | frontend/src/components/AppointmentBooking.js:20-35 | any seven more days add exactly five business days |
| Booking.FirstWeek | frontend/src/components/AppointmentBooking.js:20-35 | the first seven offsets hold five business days |
| Booking.OneMoreDay | frontend/src/components/AppointmentBooking.js:20-35 | one more day adds at most one date |
| Booking.WholeWeeks | frontend/src/components/AppointmentBooking.js:20-35 | q whole weeks hold 5q dates |
| Booking.HorizonCount | frontend/src/components/AppointmentBooking.js:16-37 | thirty days hold 20 to 22 business days |
| Booking.GenerateAvailableDates | frontend/src/components/AppointmentBooking.js:16-37 | the loop returns the business days among offsets 1 .. 30: strictly increasing, no others, 20 to 22 of them |
| Booking.TimeSlots | frontend/src/components/AppointmentBooking.js:40-44 | twelve distinct, non-empty slots |
| Booking.SelectDate | frontend/src/components/AppointmentBooking.js:48-51 | step 2 with the date set; time and form unchanged |
| Booking.SelectTime | frontend/src/components/AppointmentBooking.js:53-56 | step 3 with the time set; date and form unchanged |
| Booking.InputChange | frontend/src/components/AppointmentBooking.js:58-63 | exactly the named field changes, to the value |
| Booking.BackToDate | frontend/src/components/AppointmentBooking.js:210 | back to step 1, keeping the choices |
| Booking.BackToTime | frontend/src/components/AppointmentBooking.js:275 | back to step 2, keeping the choices |
| Booking.Reset | frontend/src/components/AppointmentBooking.js:84-89 | step 1, no date, no time, an empty form |
| Booking.RunStaysConsistent | frontend/src/components/AppointmentBooking.js:48-94 | every sequence of clicks the screens allow keeps the step in {1, 2, 3}, with a date from step 2 on and a time at step 3 |
| AppointmentBooking.BookingWidget.constructor | frontend/src/components/AppointmentBooking.js:5-13 | closed, at the initial wizard state |
| AppointmentBooking.BookingWidget.Open | frontend/src/components/AppointmentBooking.js:101 | opens and keeps the wizard state |
| AppointmentBooking.BookingWidget.HandleDateSelect | frontend/src/components/AppointmentBooking.js:48-51 | the wizard state becomes `SelectDate` of the old one |
| AppointmentBooking.BookingWidget.HandleTimeSelect | frontend/src/components/AppointmentBooking.js:53-56 | the wizard state becomes `SelectTime` of the old one |
| AppointmentBooking.BookingWidget.HandleInputChange | frontend/src/components/AppointmentBooking.js:58-63 | the wizard state becomes `InputChange` of the old one |
| AppointmentBooking.BookingWidget.BackToDateStep | frontend/src/components/AppointmentBooking.js:210 | the wizard state becomes `BackToDate` of the old one |
| AppointmentBooking.BookingWidget.BackToTimeStep | frontend/src/components/AppointmentBooking.js:275 | the wizard state becomes `BackToTime` of the old one |
| AppointmentBooking.BookingWidget.ResetForm | frontend/src/components/AppointmentBooking.js:84-89 | the wizard state becomes `Reset` of the old one |
| AppointmentBooking.BookingWidget.HandleClose | frontend/src/components/AppointmentBooking.js:91-94 | closed and reset |
| AppointmentBooking.BookingWidget.HandleSubmit | frontend/src/components/AppointmentBooking.js:65-82 | hands over the form, date, time and timestamp, then closes and resets |
| AppointmentManager.Manager.constructor | frontend/src/components/AppointmentManager.js:7-16 | both flags down, at the initial wizard state |
| AppointmentManager.Manager.HandleAppointmentClick | frontend/src/components/AppointmentManager.js:51-53 | opens only the booking modal |
| AppointmentManager.Manager.HandleSkillsClick | frontend/src/components/AppointmentManager.js:55-57 | opens only the skills pop-up |
| AppointmentManager.Manager.CloseSkillsPopup | frontend/src/components/AppointmentManager.js:117 | clears only the pop-up's flag |
| AppointmentManager.Manager.HandleDateSelect | frontend/src/components/AppointmentManager.js:59-62 | `SelectDate` on the wizard; the flags unchanged |
| AppointmentManager.Manager.HandleTimeSelect | frontend/src/components/AppointmentManager.js:64-67 | `SelectTime` on the wizard; the flags unchanged |
| AppointmentManager.Manager.HandleInputChange | frontend/src/components/AppointmentManager.js:69-74 | `InputChange` on the wizard; the flags unchanged |
| AppointmentManager.Manager.BackToDateStep | frontend/src/components/AppointmentManager.js:194 | `BackToDate` on the wizard |
| AppointmentManager.Manager.BackToTimeStep | frontend/src/components/AppointmentManager.js:259 | `BackToTime` on the wizard |
| AppointmentManager.Manager.ResetForm | frontend/src/components/AppointmentManager.js:94-99 | `Reset` on the wizard |
| AppointmentManager.Manager.HandleClose | frontend/src/components/AppointmentManager.js:101-104 | the modal closes and the wizard resets; the pop-up is untouched |
| AppointmentManager.Manager.HandleSubmit | frontend/src/components/AppointmentManager.js:76-92 | hands over the booking, then behaves as `HandleClose` |
| AdminDashboard.SaveCall | frontend/src/components/AdminDashboard.js:127-166 | profile and achievements use their single update; a list section updates the edited item iff there is one, else creates; appointments always update, and crash without an item; any other section calls nothing |
| AdminDashboard.UpdateOnlyForEditedItem | frontend/src/components/AdminDashboard.js:127-166 | an update by id is sent only for an item being edited, and a creation only when there is none |
| AdminDashboard.Dashboard.constructor | frontend/src/components/AdminDashboard.js:5-25 | unauthenticated, no message, modal closed |
| AdminDashboard.Dashboard.Mount | frontend/src/components/AdminDashboard.js:39-45 | a remembered login authenticates and loads the data |
| AdminDashboard.Dashboard.HandleLogin | frontend/src/components/AdminDashboard.js:28-37 | authenticates, remembers the login and loads iff the password is 'pass@123'; otherwise only the error shows |
| AdminDashboard.Dashboard.HandleLogout | frontend/src/components/AdminDashboard.js:47-50 | unauthenticated, and the remembered flag is removed |
| AdminDashboard.Dashboard.OpenModal | frontend/src/components/AdminDashboard.js:115-119 | sets the item (possibly none) and the section, and opens the modal |
| AdminDashboard.Dashboard.CloseModal | frontend/src/components/AdminDashboard.js:121-125 | no item, no section, modal closed |
| AdminDashboard.Dashboard.HandleSaveFromModal | frontend/src/components/AdminDashboard.js:127-173 | makes the `SaveCall` call; success reloads, reports and closes the modal; failure or a crash keeps the modal state and reports an error |
| AdminDashboard.Dashboard.HandleDelete | frontend/src/components/AdminDashboard.js:103-112 | a declined confirmation is a no-op; otherwise the item is deleted, with a reload exactly on success |
| AiChatWidget.SuggestionsForFacts | frontend/src/components/AiChat.js:181-193 | a blank input offers nothing; otherwise at most three predefined suggestions, each including the input ignoring case, in their predefined order; a match is left out only when three already fill the list, and never in favour of a later match, so the offer is the first three matches |
| AiChatWidget.SetText | frontend/src/components/AiChat.js:157-161 | the messages carrying the id get the new text; every other message is unchanged |
| AiChatWidget.SetTextTwice | frontend/src/components/AiChat.js:155-161 | a later update of the same message overrides an earlier one |
| AiChatWidget.ApplyChunks | frontend/src/components/AiChat.js:154-162 | the accumulated response is all chunks concatenated, and only the AI message shows it |
| AiChatWidget.ChatWidget.constructor | frontend/src/components/AiChat.js:16-26 | closed, empty, not loading, not in voice mode |
| AiChatWidget.ChatWidget.HandleInputChange | frontend/src/components/AiChat.js:181-193 | the input follows the box and the suggestions are `SuggestionsFor(value)` |
| AiChatWidget.ChatWidget.HandleSuggestionClick | frontend/src/components/AiChat.js:123-126 | the suggestion becomes the input and the list clears |
| AiChatWidget.ChatWidget.HandleVoiceToggle | frontend/src/components/AiChat.js:101-110 | voice mode flips; listening and speaking stop; speech is cancelled iff it was going on |
| AiChatWidget.ChatWidget.HandleSubmit | frontend/src/components/AiChat.js:128-179 | a blank input or a request under way changes nothing; otherwise the trimmed input and an AI message are appended, the AI message alone receives the streamed text, the input and suggestions clear, and a non-empty answer is spoken in voice mode |
| AiChatWidget.StreamedAnswerLandsInAiMessage | frontend/src/components/AiChat.js:145-162 | after a submit with chunks, the new AI message is last and holds the whole answer; earlier messages with other ids are unchanged |
| ChatSession.HistoryOf | components/AiChat.tsx:68-71 | one entry per message, in order, with the text copied; role 'user' iff sent by the user, 'model' iff by the AI |
| ChatSession.HistoryOfAppend | components/AiChat.tsx:68-71 | the history of a longer conversation extends that of a shorter one |
| ChatSession.UpdateLast | components/AiChat.tsx:86-93 | only the last message changes, and only if it is the AI's; an empty list is unchanged |
| ChatSession.FirstPart | components/AiChat.tsx:97 | the text before the first marker (all of it when there is none), holding no marker |
| ChatSession.NoOccurrenceBefore | components/AiChat.tsx:97 | a prefix that ends before the first marker holds no marker |
| ChatSession.SplitSuggestions | components/AiChat.tsx:96-99 | there is a split iff the text includes the marker |
| ChatSession.MarkerHasNoBorder | components/AiChat.tsx:96-99 | no proper suffix of '[SUGGESTIONS]' starts it, so occurrences cannot overlap |
| ChatSession.SplitSuggestionsRoundTrip | components/AiChat.tsx:96-99 | text + marker + JSON, with no marker in either part, splits back into the trimmed text and the trimmed JSON |
| ChatSession.AnswerWithoutMarker | components/AiChat.tsx:96-114 | an answer without the marker is shown as streamed, with no suggestions |
| ChatSession.WellFormedAnswer | components/AiChat.tsx:96-110 | a well-formed answer whose JSON parses shows its trimmed text and the parsed suggestions |
| ChatSession.UpdateLastAi | components/AiChat.tsx:86-93 | updating a trailing AI message replaces its text and nothing else |
| ChatSession.StreamReply | components/AiChat.tsx:73-94 | after the loop the AI message holds every chunk, in order, after the unchanged conversation |
| ChatSession.FinishReply | components/AiChat.tsx:96-124 | the AI message ends as `FinalAnswer`'s text and the suggestions as its suggestions: the apology on failure, the split text and parsed list when they parse, else the streamed text |
| ChatSession.Exchange | components/AiChat.tsx:58-130 | the history is that of the conversation up to the user's message; the list gains the user's message and the finished AI message |
| ChatSession.ChatWindow.constructor | components/AiChat.tsx:18-23 | closed, empty, no dialog |
| ChatSession.ChatWindow.Open | components/AiChat.tsx:31-39 | opening an empty chat starts loading the greeting |
| ChatSession.ChatWindow.DeliverGreeting | components/AiChat.tsx:34-37 | the chat holds exactly the greeting and loading is over |
| ChatSession.ChatWindow.HandleCloseChat | components/AiChat.tsx:43-50 | more than one message asks for confirmation and keeps everything; otherwise the chat closes and empties |
| ChatSession.ChatWindow.ConfirmClose | components/AiChat.tsx:52-56 | closed, no dialog, no messages |
| ChatSession.ChatWindow.HandleSendMessage | components/AiChat.tsx:58-130 | a blank text changes nothing; otherwise the history up to the user's message is sent, the user's message and the finished AI message are appended, the suggestions are the answer's, and the input is cleared |
| GeminiService.FreshForFiveMinutes | frontend/src/services/geminiService.js:16-23 | loaded instructions are served from the cache iff less than 300000 ms have passed |
| GeminiService.InstructionCache.constructor | frontend/src/services/geminiService.js:14-15 | the cache starts empty |
| GeminiService.InstructionCache.FetchAIInstructions | frontend/src/services/geminiService.js:19-48 | a fresh cache answers without a request; an answer is stored with its time and returned; any failure returns the built-in text and leaves the cache untouched |
| GeminiService.PartsOfFour | frontend/src/services/geminiService.js:54-66 | where each part sits in a four-part concatenation |
| GeminiService.BuildSystemInstruction | frontend/src/services/geminiService.js:51-67 | the result starts with the instructions, holds the résumé right after its heading, and ends with the answering rules |
| GeminiService.ReplyText | frontend/src/services/geminiService.js:89 | `response` when truthy, else `message` when truthy, else the apology; never empty |
| GeminiService.Spaced | frontend/src/services/geminiService.js:92-94 | each word followed by exactly one space |
| GeminiService.ConcatSpaced | frontend/src/services/geminiService.js:90-94 | the spaced words concatenate to the words joined by spaces, plus one space |
| GeminiService.StreamChatMessage | frontend/src/services/geminiService.js:69-101 | a reply is sent as its space-split words, each with one space, and the chunks concatenate to the reply text plus one space; any failure sends exactly one apology chunk |
| GeminiService.SpaceWords | frontend/src/services/geminiService.js:92-96 | the loop emits `Spaced(words)` |
| Loader.TickStep | frontend/src/App.js:22-33 | App.js advances only while the next step is in range; App.tsx advances whenever the step is in range |
| Loader.StepAfterTicks | frontend/src/App.js:22-33 | after k ticks App.js shows step min(k, len-1) and App.tsx reaches min(k, len) |
| Loader.StepNeverDecreases | frontend/src/App.js:23-31 | the step never decreases |
| Loader.LoadingScreen.constructor | frontend/src/App.js:18-19 | loading, at step 0, with the interval running |
| Loader.LoadingScreen.Tick | frontend/src/App.js:22-33 | the step becomes `TickStep`, never decreases and stays in range; the interval stops, and the hide is scheduled, exactly when the next step would be out of range |
| Loader.LoadingScreen.HideTimeout | frontend/src/App.js:28 | a scheduled hide ends loading |
| Loader.LoadingScreen.Render | frontend/src/App.js:38-74 | while loading, the segments before the step are marked and none is unmarked, and the text is set only when the step names one; after loading, the loader is hidden and the container marked loaded, each when present |
| Loader.MarkSegments | App.tsx:44-48 | a segment ends visible iff it was visible or its index is below the step |
| Loader.CappedStepNeverReachesLast | App.tsx:22-31 | App.js's step never leaves the step list; App.tsx's reaches one past its last index after five ticks and stays there |
| Mem0Service.ResultsOf | backend/mem0_service.py:113-116 | the listed memories; none when the call raised or the key is missing |
| Mem0Service.NumberedLinesMembers | backend/mem0_service.py:208-211 | a line is listed iff some memory with text at position j reads "j+1. text"; empty memories are skipped without renumbering |
| Mem0Service.NoLinesIffAllEmpty | backend/mem0_service.py:208-213 | there are no lines iff every memory's text is empty |
| Mem0Service.JoinNewlines | backend/mem0_service.py:213 | the newline join is the first part, then each other part after a newline |
| Mem0Service.Prefixed | backend/mem0_service.py:213 | each part preceded by the separator |
| Mem0Service.FormatContext | backend/mem0_service.py:207-213 | the context is empty iff every memory's text is empty; otherwise it is the header followed by the numbered lines, one per line |
| Mem0Service.BuildContext | backend/mem0_service.py:207-213 | the formatting loop computes `FormatContext` |
| Mem0Service.Mem0Service.constructor | backend/mem0_service.py:16-45 | a client exists iff GOOGLE_API_KEY or GEMINI_API_KEY is set and creating the client succeeds; it is built from the Chroma configuration |
| Mem0Service.Mem0Service.AddConversation | backend/mem0_service.py:51-85 | unavailable: nothing is stored and success is false; otherwise the conversation is added with the metadata or {}; success iff the store returns |
| Mem0Service.Mem0Service.SearchMemories | backend/mem0_service.py:87-116 | unavailable: no call and []; otherwise the results, or [] on an error |
| Mem0Service.Mem0Service.GetAllMemories | backend/mem0_service.py:118-136 | unavailable: no call and []; otherwise the results, or [] on an error |
| Mem0Service.Mem0Service.DeleteMemory | backend/mem0_service.py:138-157 | true iff available and the store's delete returns |
| Mem0Service.Mem0Service.DeleteAllMemories | backend/mem0_service.py:159-178 | true iff available and the store's delete returns |
| Mem0Service.Mem0Service.GetContextForChat | backend/mem0_service.py:180-217 | unavailable: no call and ""; otherwise one search, and the context is `FormatContext` of its results ("" when none) |
| Mem0Service.Registry.constructor | backend/mem0_service.py:221 | no instance at first |
| Mem0Service.Registry.GetMem0Service | backend/mem0_service.py:223-228 | the first call creates the service, with its availability; every later call returns that same object |
| Models.NewProfile | backend/models.py:5-13 | the five required fields as given; linkedin, github and email absent |
| Models.NewExperience | backend/models.py:19-26 | no id, an empty project list, the other fields as given |
| Models.NewAppointment | backend/models.py:82-90 | status 'pending', no id and no creation time |
| Models.NewBlogPost | backend/models.py:92-111 | author 'Ibrahim El Khalil', no tags, 'draft' (one of the three intended statuses), 0 views, not AI generated, images [] and every other optional field absent |
| Text.Trim | components/AiChat.tsx:98 | the result is the input with a white-space prefix and a white-space suffix removed, and neither of its ends is white space |
| Text.BlankIffTrimmedEmpty | frontend/src/components/SkillsPopup.js:10 | a string is blank iff trimming it leaves the empty string |
| Text.Lower | frontend/src/components/SkillsPopup.js:17 | each character lower-cased, length kept |
| Text.ContainsIff | components/AiChat.tsx:96 | `includes` holds iff the needle occurs at some position |
| Text.ContainsEmpty | frontend/src/components/BlogPage.js:59 | every string includes the empty string |
| Text.IndexOf | components/AiChat.tsx:97 | the first occurrence, or none iff there is no occurrence at all |
| Text.ContainsIffIndexOf | components/AiChat.tsx:96-97 | `includes` and `indexOf` agree |
| Text.Split | frontend/src/services/geminiService.js:90 | at least one part, none holding the separator |
| Text.JoinSplit | frontend/src/services/geminiService.js:90 | joining the split parts with the separator gives back the string |
| Text.ConcatAllSnoc | frontend/src/components/AiChat.js:156 | accumulating one more chunk appends its text |
| Text.NatToString | backend/mem0_service.py:211 | a non-empty string of decimal digits, without a leading zero, whose value is the number |
| Text.NatToStringInjective | backend/mem0_service.py:211 | two numbers are written alike iff they are equal, so the memory lines' numbers tell the positions apart |
| Seqs.DistinctFacts | frontend/src/components/Blog.js:25 | the de-duplicated list has no duplicates, the same members, and first-occurrence order |
| Seqs.Take | frontend/src/components/AiChat.js:189 | a prefix of length min(n, len) |

## Left out

- Rendering is not modelled. This covers JSX, CSS classes, animations, scrolling and the particle effects. Only the choice of view on the blog page (`BlogPage.PageView`) and the modal condition on the blog grid are kept.
- Timers are events rather than clocks. The loader's interval and 500 ms timeout are the methods `Tick` and `HideTimeout`; the chat greeting's one-second timer is `DeliverGreeting`. The 300 ms text fade, the loader's fade-out and the three-second message banner are not modelled.
- Clearing the loader's interval on unmount is not modelled.
- Only whether the loader elements exist is modelled, as fields fixed at construction; the number of progress segments is the length of the segment array.
- Dates are modelled as offsets.
  - The weekday of today is a parameter.
  - A date is its offset in days.
  - The ISO and locale renderings (`toISOString`, `toLocaleDateString`) are left out or passed in as a function.
  - `Date.now()` message ids and timestamps are parameters.
- The network, the API client and the memory store are oracles. Each call is a parameter giving its outcome (`Fetch`, `apiOk`, `Call`), and the request is returned where the source's arguments matter (`StoreRequest`, `BlogCall`, `ApiCall`).
- The data reload after a save or a delete is only a `reload` flag.
- `localStorage`, `window.confirm` and navigation are parameters and results.
- Speech recognition and synthesis are reduced to their flags and the `spoken` result. `startListening`, its transcript and `speakText` are not modelled.
- ChatSession.FinalAnswer: `JSON.parse` is not modelled; its outcome is the parameter `parsed`. The model does not tie that outcome to the JSON text.
- Each handler is one atomic step. React's batching, and the interleaving of awaits with other events, are not modelled.
- The loading flag while a reply streams is collapsed to its final value. In the source it drops at the first chunk.
- Messages are values. In components/AiChat.tsx the chunk loop changes the last message object in place, so earlier state snapshots share it; that aliasing is not modelled.
- Opening the TypeScript chat window with a non-empty list while a greeting timer is pending is not modelled.
- The `catch` branch of `handleSubmit` in frontend/src/components/AiChat.js is not modelled. `streamChatMessage` catches its own errors, so the branch is reached only when the chunk callback throws.
- Logging (`console.*` and `logger`) is not modelled.
- The outer `try` of `get_context_for_chat` is not modelled. It is reached only when formatting raises, for instance on a result entry that is not a dictionary.
- A memory whose `memory` entry is present but not a string is not modelled.
- The Gemini SDK client, the API key warning and the back-end URL in frontend/src/services/geminiService.js are not modelled; no logic depends on them.
- The résumé text is a parameter of `BuildSystemInstruction`.
- GeminiService.Interpolate: a JSON `instructions` field is either a string or missing (rendered "undefined"). Other JSON values are not modelled, such as `null`, which the template renders as "null", or a number.
- frontend/src/App.js renders `<AiChat />` while its import is commented out, so the component fails on its first render (or at build time under `react/jsx-no-undef`), before its interval and render effects run. The `Loader` model covers the updater and effects as written, as if the component rendered.
- Text.Lower: only ASCII `A`–`Z` are lower-cased. Unicode case mapping is not modelled. The blog searches compare user input with text from the database, so a search that differs from a post only in the case of a non-ASCII letter ("É" against "é") matches in the site and does not match in the model.
- ChatSession.SplitSuggestions: its contract states only when a split exists. What the two parts are is proved for well-formed answers, a text and a JSON part with no marker inside either, by `SplitSuggestionsRoundTrip`.
- SkillsPopup.SkillKeptWhenMatches: it states one direction. `ShownSkillsComeFromData` states the other, up to the category's id and name, because two categories may share both.
- The loading screen's `Valid` invariant covers only the steps, the interval, the pending hide and loading. The DOM flags are outside it.
- The record types of backend/models.py with no defaults worth stating (`Project`, `Education`, `Venture`, `Certificate`, `Hackathon`, `Achievements`, `WhitePaper`) are not modelled, and neither is pydantic's validation. `Project` and `Education` appear only as plain datatypes.
- `handleProfileUpdate`, `loadAllData` and the section views of the admin dashboard are not modelled. Loading is reported as a `load` or `reload` flag.
- The skills, ventures and suggestion data of frontend/src/constants.js are parameters, except the predefined chat suggestions and the loading-step texts, which are copied.
