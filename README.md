# SwipeNet UI state, modelled in Dafny

SwipeNet is a demo professional-networking web front end with hard-coded
data. This project models the small pieces of state logic inside its
components and proves what they do:

- **Swipe deck** (`SwipeDeck`, `swipe_container.dfy`). It holds the loaded
  profiles, the cursor `currentIndex` on the profile shown, and the list
  `connections` of ids accepted so far. `handleSwipeLeft` and
  `handleSwipeRight` are pure steps on a `Deck` value (`SwipeLeft`,
  `SwipeRight`). The class `SwipeContainer` carries them out in place on
  its fields. `Run` applies a whole sequence of swipes, and the lemmas about
  `Run` cover every reachable state.
- **Profile tag editing** (`ProfileEditing`, `profile_page.dfy`). The skills
  list and the "looking for" list are edited through a draft box, an add
  button and per-tag remove buttons. There is also the edit-mode flag.
- **Job search and type filter** (`Jobs`, `jobs_page.dfy`). The job filter,
  the type-checkbox toggle and "Clear all".
- **Connections search** (`Connections`, `connections_page.dfy`). The
  connection filter and the "no connections found" branch.
- **Messages** (`Messages`, `messages_page.dfy`). The conversation name
  filter and the guarded send handler.
- Shared modules: `Lists` (`lists.dfy`) models `Array.prototype.filter`,
  removal of every copy of a value, the add-or-remove toggle and the
  duplicate-free property. `Text` (`text.dfy`) models `toLowerCase`,
  `includes` and `trim`.

Each search filter is stated two ways. The code's computation uses
`Contains`. A reference definition of substring uses `Occurs`. A lemma
per page says that a row is shown exactly when the lower-cased query is a
substring of one of its lower-cased fields.

## The swipe deck as written

Some behaviour of the deck is easy to misread, and the model states it as
the code has it:

- **The cursor stops at the last profile.** Both handlers advance only
  while `currentIndex < profiles.length - 1`
  (src/components/swipe/swipe-container.tsx:91, :113). On the last profile
  they raise "No more profiles" instead (:95-98, :116-120). So the "You've
  seen all profiles" view (:133-140) is never rendered.
  `SeenAllUnreachable` proves this for every sequence of swipes.
- **Accepting can repeat an id.** A right swipe appends the current
  profile's id whenever the cursor is on a profile (:103-106), with no
  check for an id already recorded. On the last profile every press
  appends it again. `RightsAtLastProfile` proves that n presses append n
  copies.
- **The notice repeats.** "No more profiles" is raised on every press at
  the last profile, by either button (:95-98, :116-120).
- **Three profiles swiped left, right, left** end with the cursor on the
  third profile (index 2) and only the second profile connected.
  `ThreeProfileSession` states this.
- **Swipes are two buttons.** The card offers a reject and an accept
  button (src/components/swipe/profile-card.tsx:124-139), each calling one
  handler. There is no drag gesture.

## Model

| member | source | states |
|---|---|---|
| `SwipeDeck.Render` | src/components/swipe/swipe-container.tsx:125-150 | "Loading" is rendered exactly when no profile is loaded; "seen all" exactly when profiles are loaded and the cursor is at or past the end; otherwise the profile under the cursor is shown |
| `SwipeDeck.SwipeLeft` | src/components/swipe/swipe-container.tsx:90-100 | connections and profiles unchanged; the cursor advances by one exactly when a next profile exists, otherwise it stays and the only notice is "No more profiles" |
| `SwipeDeck.SwipeRight` | src/components/swipe/swipe-container.tsx:102-123 | with the cursor on a profile, exactly that profile's id is appended at the end of connections; with no profile under the cursor nothing changes and nothing is raised; the cursor advances by one exactly when a next profile exists; the notices are exactly "New connection!" with that profile's name, followed by "No more profiles" exactly on the last profile |
| `SwipeDeck.InitInvariant` | src/components/swipe/swipe-container.tsx:76-88 | the freshly loaded deck (cursor 0, no connections) satisfies the deck invariant |
| `SwipeDeck.StepPreservesInvariant` | src/components/swipe/swipe-container.tsx:90-123 | each handler keeps the cursor on a loaded profile and every connection the id of a loaded profile |
| `SwipeDeck.RunPreservesInvariant` | src/components/swipe/swipe-container.tsx:91-114 | after any sequence of swipes the cursor is below the list length (or 0 with nothing loaded) and every connection is a loaded profile's id |
| `SwipeDeck.SeenAllUnreachable` | src/components/swipe/swipe-container.tsx:133-140 | from the loaded state, no sequence of swipes renders "You've seen all profiles"; with profiles loaded a profile is always shown |
| `SwipeDeck.RunIndexBounds` | src/components/swipe/swipe-container.tsx:92-114 | the cursor never decreases and grows by at most one per swipe; the profile list never changes |
| `SwipeDeck.RunConnectionsGrow` | src/components/swipe/swipe-container.tsx:103-106 | with profiles loaded, earlier connections are kept as a prefix and exactly one id is added per right swipe (left swipes add none) |
| `SwipeDeck.RunOnEmptyDeck` | src/components/swipe/swipe-container.tsx:91-103 | with no profiles loaded, no sequence of swipes changes the cursor or the connections |
| `SwipeDeck.LeftAtLastProfile` | src/components/swipe/swipe-container.tsx:91-98 | on the last profile a left swipe leaves the deck as it is and raises "No more profiles" |
| `SwipeDeck.RightsAtLastProfile` | src/components/swipe/swipe-container.tsx:105-120 | on the last profile, n right swipes keep the cursor and append n copies of that profile's id |
| `SwipeDeck.ThreeProfileSession` | src/components/swipe/swipe-container.tsx:90-123 | three profiles swiped left, right, left end with the cursor on the third profile and only the second connected |
| `SwipeDeck.SwipeContainer.constructor` | src/components/swipe/swipe-container.tsx:76-88 | the component after loading: the given profiles, cursor 0, no connections, invariant established |
| `SwipeDeck.SwipeContainer.CurrentScreen` | src/components/swipe/swipe-container.tsx:125-150 | the rendered branch of a valid component is never "seen all" |
| `SwipeDeck.SwipeContainer.HandleSwipeLeft` | src/components/swipe/swipe-container.tsx:90-100 | updates the fields as `SwipeLeft` does and returns its notices; connections unchanged; invariant kept |
| `SwipeDeck.SwipeContainer.HandleSwipeRight` | src/components/swipe/swipe-container.tsx:102-123 | updates the fields as `SwipeRight` does and returns its notices; the current profile's id is appended; invariant kept |
| `ProfileEditing.AddTag` | src/pages/ProfilePage.tsx:44-52 | the list is either unchanged or grows by the draft at the end; afterwards a non-empty draft is in the list; the draft is cleared exactly when it was appended (or already empty), otherwise kept |
| `ProfileEditing.RemoveTag` | src/pages/ProfilePage.tsx:54-59 | no copy of the tag remains; the result is a sublist of the original in the same order; every other tag keeps all its copies |
| `ProfileEditing.AddTagAppends` | src/pages/ProfilePage.tsx:45-50 | a non-empty draft not in the list is appended at the end and the draft cleared |
| `ProfileEditing.AddTagRejects` | src/pages/ProfilePage.tsx:45 | an empty draft, or one already in the list, changes neither the list nor the draft |
| `ProfileEditing.BlankDraftAccepted` | src/pages/ProfilePage.tsx:45 | only emptiness is checked: a draft of one space is appended like any other |
| `ProfileEditing.AddTagKeepsNoDup` | src/pages/ProfilePage.tsx:45-48 | adding keeps a duplicate-free list duplicate-free |
| `ProfileEditing.AddThenRemove` | src/pages/ProfilePage.tsx:48-57 | adding a tag not yet present and then removing it restores the original list |
| `ProfileEditing.TagOpsKeepNoDup` | src/pages/ProfilePage.tsx:44-76 | any sequence of add and remove presses keeps a duplicate-free tag list duplicate-free |
| `ProfileEditing.ProfilePage.constructor` | src/pages/ProfilePage.tsx:16-34 | starts out of edit mode with the given profile data and empty drafts |
| `ProfileEditing.ProfilePage.TypeSkill` | src/pages/ProfilePage.tsx:183-188 | callable only in edit mode, where the input exists; the skill draft becomes the typed text; nothing else changes |
| `ProfileEditing.ProfilePage.TypeInterest` | src/pages/ProfilePage.tsx:216-221 | callable only in edit mode, where the input exists; the "looking for" draft becomes the typed text; nothing else changes |
| `ProfileEditing.ProfilePage.AddSkill` | src/pages/ProfilePage.tsx:44-52 | callable only in edit mode (the button is rendered at :183-195); skills and the skill draft become `AddTag` of the old ones; every other profile field, the interest draft and the edit mode are unchanged; duplicate-freedom of skills is kept |
| `ProfileEditing.ProfilePage.RemoveSkill` | src/pages/ProfilePage.tsx:54-59 | callable only in edit mode (the badge button is rendered at :172-179); skills become `RemoveTag` of the old skills; every other field unchanged; duplicate-freedom kept |
| `ProfileEditing.ProfilePage.AddInterest` | src/pages/ProfilePage.tsx:61-69 | callable only in edit mode (the button is rendered at :216-228); "looking for" and its draft become `AddTag` of the old ones; skills and every other field unchanged; duplicate-freedom kept |
| `ProfileEditing.ProfilePage.RemoveInterest` | src/pages/ProfilePage.tsx:71-76 | callable only in edit mode (the badge button is rendered at :205-212); "looking for" becomes `RemoveTag` of the old list; skills and every other field unchanged; duplicate-freedom kept |
| `ProfileEditing.ProfilePage.StartEditing` | src/pages/ProfilePage.tsx:117-125 | the Edit button exists only outside edit mode; it sets edit mode and changes nothing else |
| `ProfileEditing.ProfilePage.HandleSaveProfile` | src/pages/ProfilePage.tsx:36-42 | the Save button exists only in edit mode (:126-132); saving leaves edit mode and changes nothing else |
| `Jobs.FilterJobs` | src/pages/JobsPage.tsx:97-105 | the result is a sublist of the postings in the original order; every shown posting passes both the search and the type condition, and every posting passing both is shown |
| `Jobs.TextMatchesMeaning` | src/pages/JobsPage.tsx:99-103 | the search condition holds exactly when the lower-cased query is a substring of the lower-cased title, company or some skill |
| `Jobs.FilterJobsKeepsExactly` | src/pages/JobsPage.tsx:97-105 | a posting is shown if and only if it is in the list, the query is a substring of its title, company or a skill (ignoring case), and the selection is empty or holds its type |
| `Jobs.EmptySelectionKeepsAllTypes` | src/pages/JobsPage.tsx:104 | with nothing selected the result is the search filter alone |
| `Jobs.EmptySearchShowsAll` | src/pages/JobsPage.tsx:99-104 | an empty query with an empty selection shows every posting |
| `Jobs.FilterJobsIgnoresCase` | src/pages/JobsPage.tsx:99-102 | queries equal after lower-casing show the same postings |
| `Jobs.JobsPage.constructor` | src/pages/JobsPage.tsx:37-38 | starts with an empty query and an empty selection |
| `Jobs.JobsPage.SetSearchQuery` | src/pages/JobsPage.tsx:138 | the query becomes the typed text; the selection is unchanged |
| `Jobs.JobsPage.ToggleJobType` | src/pages/JobsPage.tsx:114-120 | the selection becomes `Toggle` of the old one: the type's membership flips, other types keep theirs, duplicate-freedom is kept |
| `Jobs.JobsPage.ClearAll` | src/pages/JobsPage.tsx:183 | "Clear all" empties the selection |
| `Lists.Filter` | src/pages/ConnectionsPage.tsx:56-64 | `Array.prototype.filter`: the result is a sublist of the input in order, no longer than it, holds only elements satisfying the predicate, and every element that does with all its copies |
| `Lists.Without` | src/pages/ProfilePage.tsx:57 | every element equal to the value is removed; every other element is kept with all its copies, in the original order |
| `Lists.Toggle` | src/pages/JobsPage.tsx:116-118 | the value is present afterwards exactly when it was absent before; other values keep their membership |
| `Lists.WithoutNoDup` | src/pages/ProfilePage.tsx:57 | removal keeps a duplicate-free list duplicate-free |
| `Lists.AppendThenWithout` | src/pages/JobsPage.tsx:117-118 | appending an absent value and then removing it gives back the original list |
| `Lists.ToggleNoDup` | src/pages/JobsPage.tsx:116-118 | toggling keeps a duplicate-free selection duplicate-free |
| `Lists.ToggleTwice` | src/pages/JobsPage.tsx:116-118 | toggling an absent type twice gives back exactly the original selection |
| `Connections.FilterConnections` | src/pages/ConnectionsPage.tsx:56-64 | the result is a sublist of the connections in order; every shown connection matches and every matching connection is shown |
| `Connections.ConnectionMatchesMeaning` | src/pages/ConnectionsPage.tsx:57-63 | the match holds exactly when the lower-cased query is a substring of the lower-cased name, title, company or some skill |
| `Connections.FilterConnectionsKeepsExactly` | src/pages/ConnectionsPage.tsx:56-64 | a connection is shown if and only if it is in the list and the query is a substring of its name, title, company or a skill, ignoring case |
| `Connections.EmptySearchShowsAll` | src/pages/ConnectionsPage.tsx:58 | an empty query shows every connection |
| `Connections.FilterConnectionsIgnoresCase` | src/pages/ConnectionsPage.tsx:58-62 | queries equal after lower-casing show the same connections |
| `Connections.ResultsView` | src/pages/ConnectionsPage.tsx:92-110 | when cards are shown they are exactly the filtered connections and there is at least one |
| `Connections.NoneFoundIffNoMatch` | src/pages/ConnectionsPage.tsx:92-108 | "No connections found" is shown exactly when no connection matches the query |
| `Messages.FilterConversations` | src/pages/MessagesPage.tsx:119-121 | the result is a sublist of the conversations in order; every listed conversation's name matches and every matching one is listed |
| `Messages.FilterConversationsKeepsExactly` | src/pages/MessagesPage.tsx:119-121 | a conversation is listed if and only if it is in the list and the lower-cased query is a substring of its lower-cased name |
| `Messages.EmptySearchShowsAll` | src/pages/MessagesPage.tsx:120 | an empty query lists every conversation |
| `Messages.SendGuardMeaning` | src/pages/MessagesPage.tsx:125 | the send guard passes exactly when the draft is not blank (empty or whitespace only) and a conversation is open |
| `Messages.MessagesPage.constructor` | src/pages/MessagesPage.tsx:30-32 | starts with no open conversation, an empty draft and an empty query |
| `Messages.MessagesPage.SetSearchQuery` | src/pages/MessagesPage.tsx:152 | the query becomes the typed text; nothing else changes |
| `Messages.MessagesPage.SelectConversation` | src/pages/MessagesPage.tsx:166 | the clicked conversation becomes the open one; nothing else changes |
| `Messages.MessagesPage.TypeMessage` | src/pages/MessagesPage.tsx:261 | the draft becomes the typed text; nothing else changes |
| `Messages.MessagesPage.HandleSendMessage` | src/pages/MessagesPage.tsx:123-133 | the notice is raised exactly when the draft is not blank and a conversation is open; then the draft is cleared, otherwise it is kept; the open conversation and every conversation's messages are unchanged |
| `Text.LowerChar` | src/pages/JobsPage.tsx:99 | ASCII upper-case letters map to their lower-case letter (code + 32); every other character is kept; the result is never upper-case |
| `Text.Lower` | src/pages/JobsPage.tsx:99 | `toLowerCase` keeps the length, maps each upper-case letter to its lower-case letter (code + 32) and keeps every character that is not one |
| `Text.Contains` | src/pages/ConnectionsPage.tsx:58 | `includes`: the empty string is contained in every string, and a contained string is no longer than the container |
| `Text.ContainsMeansOccurs` | src/pages/ConnectionsPage.tsx:58 | `includes` holds exactly when the query is some slice of the string |
| `Text.MatchesQueryIgnoresCase` | src/pages/ConnectionsPage.tsx:58-62 | queries equal after lower-casing match the same fields |
| `Text.EmptyQueryMatches` | src/pages/ConnectionsPage.tsx:58 | an empty query matches every field |
| `Text.Trim` | src/pages/MessagesPage.tsx:125 | `trim` never lengthens and leaves no trailing whitespace |
| `Text.TrimEmptyIffBlank` | src/pages/MessagesPage.tsx:125 | a string trims to empty exactly when all its characters are whitespace |

## Left out

- Rendering, CSS classes and layout are not modelled. The render branches
  that are modelled: the deck's three screens, the connections page's
  results or "none found", and the profile page's edit mode, which decides
  which handlers have a control (each `ProfilePage` method requires the
  mode in which its control is rendered).
- The jobs and messages pages also render some controls only under a
  condition, and the model does not require those conditions:
  - The message input and the send form (`TypeMessage`,
    `HandleSendMessage`) are rendered only while a conversation is open
    (src/pages/MessagesPage.tsx:203, :253-261). So the no-conversation
    return of the send handler (:125) cannot fire from the page, but the
    model covers it.
  - A conversation can be opened only by clicking one listed in the
    filtered list (:158-166). `SelectConversation` accepts any
    conversation.
  - "Clear all" and the remove buttons on the selected-type badges
    (`ClearAll`, `ToggleJobType`) are rendered only while a type is
    selected (src/pages/JobsPage.tsx:166-183). The type checkboxes, which
    also call `ToggleJobType`, are always rendered.
- `ProfileCard` delays each swipe callback by 300 ms with `setTimeout`.
  Timing and animation are not modelled. Each handler call is one
  sequential step. Two presses inside the delay would both act on the same
  stale state in React, and that is not modelled either.
- React's state machinery is left out. Setters, batching and the
  profile-loading effect are replaced by a constructor that takes the
  loaded list.
- The hard-coded data arrays are not modelled. The mock profiles, jobs,
  connections, conversations and user data are parameters of the
  constructors, and no property depends on their particular values.
- The bio, email, phone and location inputs of edit mode
  (src/pages/ProfilePage.tsx:157, :241, :252, :263) each replace one text
  field of the profile data. They are not modelled.
- Toasts are foreign UI calls. The deck's handlers return them as `Notice`
  values. `HandleSendMessage` returns whether its notice was raised. The
  "Profile updated" toast of `HandleSaveProfile` is not modelled.
- `handleApply` (jobs) and `handleMessage` (connections) only raise a
  "coming soon" toast, so they are not modelled.
- Text.Lower: `toLowerCase` is modelled on ASCII letters only. Other
  characters are kept, so Unicode case mapping is not captured.
- Text.Trim: the model's `Trim` strips only ASCII whitespace (space, tab,
  line feed, vertical tab, form feed, carriage return). JavaScript's `trim`
  also strips Unicode spaces and line terminators.
- Text.Trim: the contract states no leading whitespace property. What the
  send guard needs is stated by `Text.TrimEmptyIffBlank`.
- The navigation bar, the login, index and dashboard pages, the job and
  connection cards and the avatar badge are not part of this model. They
  are static markup, browser I/O (the path check) or a menu flag.
