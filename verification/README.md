# DeGi Folio: the decision logic of the front end, in Dafny

DeGi Folio is a Next.js front end that helps a developer find opportunities
that fit their skills. Most of it is markup and hard-coded sample data. This
project models the five parts that make real decisions, and proves what they
do:

- **The opportunities endpoint** (`opportunities.dfy`, module `Opportunities`).
  It refuses a request without a non-empty skills array. It picks one fixed
  list by the requested level, compared without regard to case. It keeps, in
  list order, the entries that share a skill with the user or list the skill
  `"Any"`, and it reports their count.
- **The chat endpoint** (`chat_route.dfy`, module `ChatRoute`). It refuses a
  missing or empty message. It lower-cases the text and tries an ordered
  list of keyword rules: greeting, GitHub, Twitter/X, LinkedIn, jobs, skills.
  The first rule with a keyword inside the text gives the reply, and a fixed
  fallback covers the rest.
- **The job hunt list** (`job_hunt.dfy`, module `JobHunt`). A job is listed
  when the search text occurs in its title, company or a skill, compared
  without regard to case, and when its type and location pass two selectors.
  The selector value `'all'` admits everything.
- **The chat widget** (`chatbot_widget.dfy`, module `ChatbotWidget`). A class
  holds the message history, the input text and the loading flag. The send
  handler ignores blank input and sends made while loading. Otherwise it
  appends the user's message, clears the input and sets loading. When the
  request ends, it appends the reply or a fixed apology and clears loading.
- **The navigation bar** (`navbar.dfy`, module `Navigation`). A class holds
  the scroll state and the mobile menu. Scrolling down hides the bar and
  scrolling up shows it. Past offset 10 the bar takes its scrolled style. The
  menu button flips the mobile menu and a menu link closes it. A link is
  highlighted when the current path equals its path.

Shared pieces: `text.dfy` (module `Text`) writes out JavaScript's
`toLowerCase` (for ASCII letters), `includes` and `trim` over `seq<char>`.
`seqs.dfy` (module `Seqs`) models `Array.prototype.filter` and proves that it
keeps exactly the accepted elements, in order, without using any input position twice.
`wrappers.dfy` holds the `Option` type used for request fields that may be
absent.

The model follows what the code does, including where a reader might expect
otherwise:

- An absent or unknown level gets its own two-entry list (Web Developer,
  Modern JavaScript). It does not get the intermediate list, although the
  comment at `app/api/scrape/opportunities/route.ts:105` says so. See
  `DefaultBucketIsNotIntermediate` and `UnknownLevelExample`.
- Levels do not accumulate: each level sees only its own list. Nothing is
  ranked, scored or deduplicated.
- The chat endpoint refuses only a missing or empty message. A message of
  spaces is answered with the fallback reply (`SpacesGetFallback`). Only the
  widget filters out blank input.

## Model

| member | source | states |
|---|---|---|
| `Opportunities.Post` | app/api/scrape/opportunities/route.ts:4-135 | The 400 error "Skills array is required" comes exactly when skills are missing, not an array or empty. Otherwise `count` equals the number of returned opportunities. An opportunity is returned iff it is in the list chosen for the level and passes the skill test. |
| `Opportunities.KeptIff` | app/api/scrape/opportunities/route.ts:125-129 | The filter callback keeps an opportunity iff one of its skills is one of the user's skills (exact, case-sensitive) or its skills contain "Any". |
| `Opportunities.PostPreservesOrder` | app/api/scrape/opportunities/route.ts:125-135 | The returned list is the chosen list read at strictly increasing positions, and those are exactly the positions of kept entries. Nothing is reordered or repeated. |
| `Opportunities.ParseLevelNames` | app/api/scrape/opportunities/route.ts:25-104 | The switch on `level?.toLowerCase()`: a level selects the beginner, intermediate or advanced list iff it spells that name in any letter case. An absent level, or any other text, falls to the default. |
| `Opportunities.EveryEntryReachable` | app/api/scrape/opportunities/route.ts:22-122 | No entry of the four lists is dead: a user who lists an entry's skills, at a level that selects its list, gets that entry back. |
| `Opportunities.LevelCaseInsensitive` | app/api/scrape/opportunities/route.ts:25-78 | Two level strings that differ only in letter case select the same list and give the same response. |
| `Opportunities.BeginnerSpellings` | app/api/scrape/opportunities/route.ts:25-26 | "Beginner", "BEGINNER" and "beginner" all select the beginner list. |
| `Opportunities.DefaultBucketIsNotIntermediate` | app/api/scrape/opportunities/route.ts:104-121 | An absent level, or one that lower-cases to none of the three names, selects the two-entry default list, which differs from the intermediate list. |
| `Opportunities.BucketsDisjoint` | app/api/scrape/opportunities/route.ts:25-122 | No opportunity appears in the lists of two different levels. |
| `Opportunities.OnlySelectedBucket` | app/api/scrape/opportunities/route.ts:25-129 | No entry of another level's list is ever returned. |
| `Opportunities.BeginnerAlwaysGetsHackathon` | app/api/scrape/opportunities/route.ts:42-48 | At beginner level, any non-empty skills list gets the hackathon whose skills are ["Any"]. |
| `Opportunities.IntermediateReactExample` | app/api/scrape/opportunities/route.ts:52-76 | Skills ["React"] at level "Intermediate" give exactly the Frontend Developer job and the UI bug bounty, in that order, with count 2. |
| `Opportunities.UnknownLevelExample` | app/api/scrape/opportunities/route.ts:104-121 | Skills ["JavaScript"] at level "expert" give the two default entries, with count 2. |
| `ChatRoute.FirstFiring` | app/api/chat/route.ts:29-60 | Returns the position of the first rule that fires on the text: that rule fires and none before it does. It returns none iff no rule fires. |
| `ChatRoute.Reply` | app/api/chat/route.ts:26-60 | The reply for a message is always one of the seven fixed strings. It is the fallback iff no rule fires on the lower-cased message. |
| `ChatRoute.Post` | app/api/chat/route.ts:4-63 | The 400 error "Message is required" comes exactly for a missing or empty message. Every reply is one of the seven fixed strings. |
| `ChatRoute.FirstMatchWins` | app/api/chat/route.ts:28-60 | When rule i fires on the lower-cased message and no earlier rule does, the reply is rule i's reply. |
| `ChatRoute.ReplyCaseInsensitive` | app/api/chat/route.ts:26 | Messages that differ only in letter case get the same response. |
| `ChatRoute.GreetingWins` | app/api/chat/route.ts:29-31 | Any message whose lower-cased text contains "hello" or "hi" gets the greeting, whatever else it mentions. |
| `ChatRoute.AnyXIsTwitter` | app/api/chat/route.ts:35-40 | Without "hello", "hi" or "github", a message containing "twitter" or any "x" gets the Twitter reply. |
| `ChatRoute.NoKeywordFallback` | app/api/chat/route.ts:56-60 | A non-empty message that contains none of the keywords gets the fallback reply. |
| `ChatRoute.RepliesDistinct` | app/api/chat/route.ts:29-60 | The seven replies are pairwise different. |
| `ChatRoute.HiInsideWords` | app/api/chat/route.ts:29-31 | "this" and "Which" are greeted, because they contain "hi". |
| `ChatRoute.GitHubBeforeJob` | app/api/chat/route.ts:32-49 | "GitHub job" gets the GitHub reply and not the job reply, because the GitHub rule is tried first. |
| `ChatRoute.NextStepsIsTwitter` | app/api/chat/route.ts:35-40 | "Next steps" gets the Twitter reply because of its "x". |
| `ChatRoute.SpacesGetFallback` | app/api/chat/route.ts:9-60 | A message of three spaces is not refused; it gets the fallback reply. |
| `Text.ToLower` | app/api/chat/route.ts:26 | Lower-casing keeps the length, maps each character by ASCII lower-casing and leaves no upper-case ASCII letter. |
| `Text.ToLowerEqualIff` | app/job-hunt/page.tsx:92-95 | Two strings lower-case to the same string iff they differ only in the case of ASCII letters. |
| `Text.IncludesIff` | app/api/chat/route.ts:29 | `includes` holds iff the searched string occurs at some position. |
| `Text.IncludesTransitive` | app/job-hunt/page.tsx:91-96 | A substring of a substring of s is a substring of s. |
| `Text.IncludesToLower` | app/job-hunt/page.tsx:92-95 | A substring stays a substring after both strings are lower-cased. |
| `Text.Trim` | components/ChatbotWidget.tsx:39 | The trimmed text is the part of the input between a blank prefix and a blank suffix, and it has no whitespace at either end. It is empty iff every character of the input is whitespace. |
| `Seqs.Filter` | app/job-hunt/page.tsx:90 | `filter` returns only elements of the input that the predicate accepts, and every accepted element of the input is returned. |
| `Seqs.FilterSelectsKept` | app/job-hunt/page.tsx:90 | The filter's result is its input read at strictly increasing positions. |
| `Seqs.KeptIndicesExact` | app/job-hunt/page.tsx:90 | Those positions are exactly the ones whose element the predicate accepts. |
| `JobHunt.FilteredJobs` | app/job-hunt/page.tsx:90-104 | A job is listed iff it is in the job list and matches the search, the type and the location. The search matches when the lower-cased search occurs in the lower-cased title, company or some skill. |
| `JobHunt.MatchesSearchIff` | app/job-hunt/page.tsx:91-96 | The search test holds iff the lower-cased search occurs, at some position, in the lower-cased title, company or one of the skills. |
| `JobHunt.FilteredJobsInOrder` | app/job-hunt/page.tsx:90-104 | The listed jobs keep the page's order, with no input position used twice, and come from exactly the positions of matching jobs. |
| `JobHunt.SelectorsExactOrWildcard` | app/job-hunt/page.tsx:98-101 | The type and location tests (`MatchesJobType`, `MatchesLocation`): the selector value 'all' admits every job, and any other value admits exactly the jobs with that value. |
| `JobHunt.InitialFilterShowsAll` | app/job-hunt/page.tsx:29-33 | With the initial filter (empty search, both selectors 'all'), every job is listed, in order. |
| `JobHunt.SearchCaseInsensitive` | app/job-hunt/page.tsx:91-96 | Searches that differ only in letter case list the same jobs. |
| `JobHunt.MatchesSearchMonotone` | app/job-hunt/page.tsx:91-96 | A job that matches a search also matches every substring of that search. |
| `JobHunt.LongerSearchNarrows` | app/job-hunt/page.tsx:90-104 | The jobs listed for a longer search are the jobs listed for any of its substrings, filtered again by the longer search. |
| `JobHunt.ReactSearchExample` | app/job-hunt/page.tsx:37-103 | On the page's own four jobs, searching "react" with both selectors at 'all' lists jobs 1 to 3, in page order. The internship is not listed, because "react" occurs in none of its fields. |
| `ChatbotWidget.SentTextIsAnswered` | components/ChatbotWidget.tsx:39-82 | A text that the widget's blank check lets through is never refused by the chat endpoint, and its answer is one of the endpoint's fixed replies. |
| `ChatbotWidget.EndpointOutcome` | components/ChatbotWidget.tsx:54-71 | A sent text fails iff the chat endpoint refuses it, which happens iff the text is empty. The endpoint's 400 is a non-ok response that the widget turns into a thrown error. Otherwise the answer is the endpoint's reply, one of its fixed strings. |
| `ChatbotWidget.Widget.constructor` | components/ChatbotWidget.tsx:10-26 | The conversation starts as exactly the bot's welcome message, with empty input, not loading and the panel closed. |
| `ChatbotWidget.Widget.Open` | components/ChatbotWidget.tsx:104 | The launcher opens the panel and leaves the conversation alone. |
| `ChatbotWidget.Widget.Close` | components/ChatbotWidget.tsx:136 | The close button hides the panel and leaves the conversation alone. |
| `ChatbotWidget.Widget.Edit` | components/ChatbotWidget.tsx:184-186 | Typing replaces the input text, except while loading, when the input is disabled. |
| `ChatbotWidget.Widget.BeginSend` | components/ChatbotWidget.tsx:36-50 | Blank input, or a send while loading, changes nothing. Otherwise exactly one user message with the untrimmed input is appended, earlier messages stay unchanged, the input is cleared and loading is set. The history keeps its invariant: the welcome comes first, then user and bot messages alternate, no user message is blank, loading holds exactly when the last message is the user's, and while loading the input is empty. |
| `ChatbotWidget.Widget.Complete` | components/ChatbotWidget.tsx:69-96 | The end of a request appends exactly one bot message and clears loading. The message carries the reply when one came back, and the fixed apology when the request failed. |
| `ChatbotWidget.Widget.HandleSendMessage` | components/ChatbotWidget.tsx:36-97 | A full accepted send grows the history by exactly two messages. The first is the user's text. The second is the bot's reply, or the apology when the request failed. It leaves the input empty and loading off. A refused send changes nothing. |
| `ChatbotWidget.Conversation` | components/ChatbotWidget.tsx:36-97 | Sending "hello" to the chat endpoint leaves the history as welcome, "hello", greeting. While that request is in flight, typing is ignored because the input is disabled, and a second send is ignored. |
| `Navigation.AtMostOneActive` | components/navbar.tsx:20-36 | The routes have distinct paths, so at most one link is highlighted for any path. |
| `Navigation.ActiveIffListed` | components/navbar.tsx:116 | A link is highlighted only on exact equality of paths. Some link is highlighted iff the path is one of "/", "/analytics" and "/job-hunt", so a sub-path such as "/job-hunt/1" highlights none. |
| `Navigation.Navbar.constructor` | components/navbar.tsx:39-42 | The bar starts not scrolled, visible, at offset 0, with the mobile menu closed. |
| `Navigation.Navbar.HandleScroll` | components/navbar.tsx:46-63 | After a scroll to y, the bar is visible iff y is at most the last offset (equal included), the last offset is y, and the scrolled style holds iff y > 10. The menu is unchanged. |
| `Navigation.Navbar.ToggleMobileMenu` | components/navbar.tsx:148 | The menu button flips whether the mobile menu is open. |
| `Navigation.Navbar.CloseMobileMenu` | components/navbar.tsx:174 | Following a mobile menu link closes the menu. |
| `Navigation.ScrollScenario` | components/navbar.tsx:46-63 | Scrolling to 50 hides the bar and applies the scrolled style. Staying at 50 shows the bar again. Scrolling back to 5 keeps it shown and drops the style. |

## Left out

- HTTP plumbing: JSON body parsing, `NextResponse` and status codes become the `Response` datatypes. A skills value that is missing, null or not an array is `None`.
- The 500 paths: a `level` or `message` that is not a string makes `toLowerCase` throw. Inputs are typed as strings here, so those paths do not exist in the model.
- Unicode case mapping: `toLowerCase` is modelled for ASCII letters only, and other characters are kept unchanged.
- `fetch`, `async`/`await` and the network: the chat widget takes the request's outcome (a reply, or a failure standing for a non-ok status or a thrown error) as a parameter. The `context` object sent with the request is not modelled, and neither is a successful response without a `reply` field.
- Timers: the job page's simulated load delay (the job list is empty until it fires), the navbar's 100 ms scroll throttle, and the effect re-registration on `lastScrollY` are left out. Scroll events reach `HandleScroll` one at a time.
- Rendering: React re-rendering, scroll-into-view, window listeners, styling, icons and the panel's markup are not modelled.
- `Navigation.Navbar.HandleScroll`: scroll offsets are integers here; fractional `window.scrollY` values are not modelled.
- The `setFilter({...filter, ...})` updates of the job page replace the whole filter record; the model takes the filter as a parameter.
- The other pages and routes (the home page's profile submission, the analytics dashboard, the GitHub and Twitter mock endpoints, the profile form, layout and theming) contain no decision logic beyond a non-empty-username check and are not part of this model.
