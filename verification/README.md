# Portfolio site behaviour, modelled in Dafny

This project models the logic behind a personal portfolio site built with Next.js and React. Most of the site is animation markup. Behind it sit six small rules and state machines, and each one is modelled here as a Dafny module:

- **`ContactForm`** (`contact_form.dfy`) covers the contact section:
  - `validateForm`, which builds a per-field error dictionary from three fields;
  - the `handleSubmit` status machine (`idle`/`success`/`error` plus `isSubmitting`), driven by the validation result and by how the request ended;
  - the text of the message that is sent;
  - the floating-label rule (`shouldFloat`).

  The e-mail pattern `^[^\s@]+@[^\s@]+\.[^\s@]+$` is modelled twice:
  - as a left-to-right check, `IsValidEmail`;
  - as a reference predicate saying that some split of the input matches the pattern (`MatchesEmailPattern`).

  Both are proved to accept exactly the same strings.
- **`JsText`** (`js_text.dfy`) models the JavaScript string primitives the form relies on:
  - the white-space set shared by `\s` and `String.prototype.trim`;
  - `trim`;
  - `.length`, which counts UTF-16 code units.
- **`Typewriter`** (`typewriter.dfy`) models the hero banner's typewriter:
  - one timer tick runs one of four branches over `(currentText, isTyping, currentIndex)`;
  - the invariant is that the text is always a prefix of the current phrase;
  - a whole type/pause/delete/advance cycle is proved to move on to the next phrase, modulo four.
- **`VoiceWidget`** (`voice_widget.dfy`) models the voice-assistant widget:
  - the SDK's six events and the expiry of a "thinking" timer update three flags and an append-only transcript;
  - `startCall` and `endCall` return the request they make of the SDK, `Start(assistantId)` or `Stop`;
  - the header label is derived from the flags.
- **`PortfolioLayout`** (`portfolio_layout.dfy`) covers the page layout:
  - the scroll-spy, which chooses the first section, in page order, whose element holds `scrollY + 100`;
  - the light/dark toggle;
  - the theme class applied to the document root.
- **`Navigation`** (`navigation.dfy`) covers the navigation bar:
  - the scrolled and visible flags and the tracked previous scroll position;
  - the mobile menu;
  - the highlighted item.
- **`Projects`** (`projects.dfy`) covers the project showcase:
  - the category filter over the fixed project list;
  - the tech-stack icon lookup, with its `Code` fallback;
  - the hovered card.

Each component's mutable state is a Dafny `class` whose methods update its fields in place. The methods that run a handler or a timer tick tie the new state to a pure step function, `State() == Step(old(State()))`; the plain setters state their fields directly. The properties are proved as lemmas about those step functions, and as invariants the methods keep.

Some inputs come from outside the components, and the model takes each of them as a parameter:

- **Scroll position and section boxes:** integers, plus a map from element id to box.
- **Network response:** `OkResponse`, `NotOkResponse` or `Thrown`.
- **SDK callbacks and timer expiries:** a sequence of events.

The widget's code does not do the following, and the model follows it:

- **Stale timers:** the thinking timer is never cancelled, and nothing checks whether it belongs to the latest `speech-end`. So a stale timer can end a newer thinking window early (`StaleTimerEndsNewerWindow`).
- **`endCall`:** it only requests a stop and clears no flags. The chat window with the End button is inside an exit animation (chatbotConfigure.tsx lines 204-233), so after `call-end` the End button stays clickable while the window animates out, and `endCall` then asks for a stop again while disconnected (`EndCallWhileClosing`).
- **`startCall`:** the function itself does not refuse a start while connected. Its only caller, the mic button, is rendered only while not connected (chatbotConfigure.tsx lines 174-201), and `VapiWidgetView.StartCallButton` requires exactly that. A second start is therefore possible only while a call is connecting, before `call-start` arrives.
- **Flags and the connection:** the flags are not tied to the connection. A `speech-end` after `call-end` leaves the state thinking while disconnected, though nothing displays it: the label is drawn only while connected, and `call-start` clears the flag (`ThinkingWhileDisconnected`). `call-start` does not clear the speaking flag, so a `speech-start` after `call-end` makes the next call open showing "Assistant Speaking" (`SpeakingCarriesIntoNextCall`).
- **Session status:** there is no separate session status. Whether a call is live is just the `isConnected` flag.

## Model

Source paths are relative to the repository root.

| member | source | states |
|---|---|---|
| JsText.Trim | src/components/portfolio/contact-section.tsx:134 | the trimmed string is no longer than the input; it is empty iff the input is all JavaScript white space; when non-empty, it starts and ends with a non-white-space character |
| JsText.TrimDropsOnlyWhitespace | src/components/portfolio/contact-section.tsx:134 | trim keeps one contiguous slice of the input, and everything it drops in front and behind is white space |
| JsText.TrimIdempotent | src/components/portfolio/contact-section.tsx:134 | a general property of `String.prototype.trim`: trimming twice gives the same result as trimming once |
| JsText.Utf16Length | src/components/portfolio/contact-section.tsx:146 | `.length` lies between the number of characters and twice that number, and is 0 only for the empty string |
| JsText.Utf16LengthAppend | src/components/portfolio/contact-section.tsx:146 | `.length` adds up over concatenation |
| ContactForm.EmailCheckSound | src/components/portfolio/contact-section.tsx:140 | every string the check accepts splits as a plain run, one '@', a plain run, '.', and a plain run, each non-empty |
| ContactForm.EmailCheckComplete | src/components/portfolio/contact-section.tsx:140 | every string the pattern matches passes the check |
| ContactForm.EmailCheckMatchesPattern | src/components/portfolio/contact-section.tsx:140 | the check accepts a string iff the regular expression matches it |
| ContactForm.IsValidEmail | src/components/portfolio/contact-section.tsx:140 | an accepted address has at least five characters and contains '@'; its full meaning is given by EmailCheckMatchesPattern |
| ContactForm.FormErrors | src/components/portfolio/contact-section.tsx:131-149 | the error dictionary's only possible keys are name, email and message |
| ContactForm.NameError | src/components/portfolio/contact-section.tsx:134-136 | the only name error is "Name is required"; when it occurs is given by NameErrorSpec |
| ContactForm.EmailError | src/components/portfolio/contact-section.tsx:138-142 | the only e-mail errors are "Email is required" and "Please enter a valid email address"; when each occurs is given by EmailErrorSpec |
| ContactForm.MessageError | src/components/portfolio/contact-section.tsx:144-148 | the only message errors are "Message is required" and the minimum-length message; when each occurs is given by MessageErrorSpec |
| ContactForm.NameErrorSpec | src/components/portfolio/contact-section.tsx:134-136 | the name error is exactly "Name is required" when the name is all white space, and there is none otherwise |
| ContactForm.EmailErrorSpec | src/components/portfolio/contact-section.tsx:138-142 | the e-mail gets no error iff it matches the pattern; it gets "Email is required" iff it is all white space; otherwise it gets "Please enter a valid email address" |
| ContactForm.MessageErrorSpec | src/components/portfolio/contact-section.tsx:144-148 | the message is accepted iff its trimmed length is at least 10; "Message is required" (all white space) and the minimum-length error exclude each other |
| ContactForm.FormErrorsEntries | src/components/portfolio/contact-section.tsx:131-149 | each key is present exactly when its field has an error, and it holds that field's message |
| ContactForm.FormValidIff | src/components/portfolio/contact-section.tsx:131-152 | the dictionary is empty iff the name is not blank, the e-mail matches the pattern and the trimmed message has at least 10 code units |
| ContactForm.EmptyFormErrors | src/components/portfolio/contact-section.tsx:121-148 | the cleared form gets all three "required" errors |
| ContactForm.ValidateForm | src/components/portfolio/contact-section.tsx:131-152 | the dictionary filled in place equals the error dictionary of the form, and the result is true iff that dictionary is empty |
| ContactForm.SubmissionText | src/components/portfolio/contact-section.tsx:164 | the text starts with "Name: ", ends with the message, and is 24 characters longer than the three fields together; SubmissionRoundTrip and ParseSubmissionSound show it is exactly the three labelled lines |
| ContactForm.SubmissionRoundTrip | src/components/portfolio/contact-section.tsx:164 | when neither the name nor the e-mail holds a line break, the sent text "Name: …\nEmail: …\nMessage: …" can be parsed back into the three fields |
| ContactForm.ParseSubmissionSound | src/components/portfolio/contact-section.tsx:164 | any text that parses is exactly the submission text of the fields it parses to |
| ContactForm.ShouldFloat | src/components/portfolio/contact-section.tsx:23-24 | the label floats iff the field is focused or its value is non-empty |
| ContactForm.FloatingLabelField.Floats | src/components/portfolio/contact-section.tsx:76-77 | the text area's label floats iff it is focused or its value is non-empty |
| ContactForm.FloatingLabelField.constructor | src/components/portfolio/contact-section.tsx:22 | a field starts unfocused |
| ContactForm.FloatingLabelField.Focus | src/components/portfolio/contact-section.tsx:33 | focusing sets the focus flag |
| ContactForm.FloatingLabelField.Blur | src/components/portfolio/contact-section.tsx:34 | blurring clears the focus flag |
| ContactForm.BeginSubmit | src/components/portfolio/contact-section.tsx:154-164 | the errors become the validation result; an invalid form sends nothing and changes nothing else; a valid form enters the submitting state with status idle and sends exactly the submission text |
| ContactForm.FinishSubmit | src/components/portfolio/contact-section.tsx:162-176 | submitting always ends; an OK response gives success and clears the fields and errors; a thrown error gives "error" and keeps the fields; any other response changes only the submitting flag |
| ContactForm.SubmitOutcomes | src/components/portfolio/contact-section.tsx:157-176 | over a whole submission: failed validation leaves the submit state untouched; otherwise the status ends success, idle or error (by response), the form is cleared only on success, and the submission ends not submitting with no errors |
| ContactForm.ContactSection.constructor | src/components/portfolio/contact-section.tsx:121-129 | empty fields, no errors, not submitting, status idle |
| ContactForm.ContactSection.UpdateName | src/components/portfolio/contact-section.tsx:244 | only the name field changes |
| ContactForm.ContactSection.UpdateEmail | src/components/portfolio/contact-section.tsx:254 | only the e-mail field changes |
| ContactForm.ContactSection.UpdateMessage | src/components/portfolio/contact-section.tsx:263 | only the message field changes |
| ContactForm.ContactSection.HandleSubmit | src/components/portfolio/contact-section.tsx:154-164 | the new state and the request are those of BeginSubmit on the old state |
| ContactForm.ContactSection.CompleteSubmit | src/components/portfolio/contact-section.tsx:167-176 | the new state is FinishSubmit of the old state and the response |
| Typewriter.Scheduled | src/components/portfolio/hero-section.tsx:17-34 | the chosen branch's guard holds, and in a valid state some branch is always chosen |
| Typewriter.Delay | src/components/portfolio/hero-section.tsx:17-34 | every delay lies between 50 and 2000 ms; the delay of each branch is given by ScheduledDelay |
| Typewriter.Step | src/components/portfolio/hero-section.tsx:17-33 | the phrase index stays in range; what each branch does is given by StepEffect and that it keeps the prefix invariant by StepPreservesValid |
| Typewriter.ExactlyOneBranch | src/components/portfolio/hero-section.tsx:17-34 | in a valid state exactly one of the four guards holds, and it is the scheduled branch |
| Typewriter.ScheduledDelay | src/components/portfolio/hero-section.tsx:17-34 | the four branches wait 100, 2000, 50 and 300 ms |
| Typewriter.StepEffect | src/components/portfolio/hero-section.tsx:17-33 | typing appends the target's next character; at the full phrase the tick switches to deleting and keeps the text; deleting drops exactly the last character; an empty text moves to phrase (i+1) mod 4 and resumes typing |
| Typewriter.StepPreservesValid | src/components/portfolio/hero-section.tsx:11-33 | every tick keeps the text a prefix of phrase i, with i < 4 |
| Typewriter.RunPreservesValid | src/components/portfolio/hero-section.tsx:11-33 | the prefix invariant holds after any number of ticks |
| Typewriter.RunAdd | src/components/portfolio/hero-section.tsx:13-37 | running m + n ticks is running m ticks, then n |
| Typewriter.TypingReachesPhrase | src/components/portfolio/hero-section.tsx:17-20 | typing from a k-character prefix completes the phrase after |phrase| - k ticks |
| Typewriter.DeletingEmptiesText | src/components/portfolio/hero-section.tsx:25-28 | deleting from a k-character prefix empties the text after k ticks |
| Typewriter.FullCycle | src/components/portfolio/hero-section.tsx:13-37 | from an empty text typing phrase i, 2·|phrase| + 2 ticks reach an empty text typing phrase (i+1) mod 4 |
| Typewriter.TypewriterEffect.constructor | src/components/portfolio/hero-section.tsx:8-10 | the state starts empty, typing, at phrase 0, and valid |
| Typewriter.TypewriterEffect.PendingDelay | src/components/portfolio/hero-section.tsx:17-34 | in a valid state a timer is always scheduled |
| Typewriter.TypewriterEffect.Tick | src/components/portfolio/hero-section.tsx:13-34 | the fields updated in place equal Step of the old state, and the prefix invariant is kept |
| VoiceWidget.EventEffects | src/components/portfolio/chatbotConfigure.tsx:105-139 | call-start connects, stops thinking and keeps speaking; call-end clears all three flags; speech-start sets speaking and clears thinking, keeping the connection; speech-end clears speaking, sets thinking, keeps the connection and schedules one more timer; a pending timer's expiry clears thinking only and uses up one timer, and with none pending it changes nothing; error clears speaking and thinking and keeps the connection; no other event changes the timer count; only a message touches the transcript, and it changes no flag |
| VoiceWidget.OnEvent | src/components/portfolio/chatbotConfigure.tsx:105-139 | no event removes the instance or an earlier transcript entry, and at most one entry is appended; each handler's effect is given by EventEffects |
| VoiceWidget.TimersNeverCancelled | src/components/portfolio/chatbotConfigure.tsx:121-125 | no event other than a timer's own expiry reduces the number of pending thinking timers |
| VoiceWidget.OnEventKeepsExclusive | src/components/portfolio/chatbotConfigure.tsx:105-139 | no single event makes speaking and thinking both true |
| VoiceWidget.RunKeepsExclusive | src/components/portfolio/chatbotConfigure.tsx:105-139 | over every event sequence, speaking and thinking are never both true |
| VoiceWidget.RunAppendsTranscript | src/components/portfolio/chatbotConfigure.tsx:127-134 | the transcript is append-only: a run appends exactly its transcript messages' utterances, in order |
| VoiceWidget.HeaderLabel | src/components/portfolio/chatbotConfigure.tsx:222 | "Assistant Speaking" iff speaking; "Thinking..." iff thinking and not speaking; "Listening..." iff neither |
| VoiceWidget.HeaderLabelShowsFlag | src/components/portfolio/chatbotConfigure.tsx:222 | under the exclusivity invariant the label names exactly the flag that is on |
| VoiceWidget.Mount | src/components/portfolio/chatbotConfigure.tsx:101-103 | mounting creates the instance and changes nothing else |
| VoiceWidget.StartCall | src/components/portfolio/chatbotConfigure.tsx:152-157 | with an instance, the transcript is emptied and a start with the assistant id is requested; without one, nothing happens |
| VoiceWidget.EndCall | src/components/portfolio/chatbotConfigure.tsx:159-163 | a stop is requested iff an instance exists |
| VoiceWidget.StartCallClearsTranscript | src/components/portfolio/chatbotConfigure.tsx:152-157 | after startCall the transcript holds exactly the utterances that arrive afterwards |
| VoiceWidget.StaleTimerEndsNewerWindow | src/components/portfolio/chatbotConfigure.tsx:121-125 | an earlier speech-end's timer ends a later thinking window early, while the later timer is still pending |
| VoiceWidget.EndCallWhileClosing | src/components/portfolio/chatbotConfigure.tsx:110-113 | after call-end the widget is disconnected, and endCall from the closing window still requests a stop |
| VoiceWidget.ThinkingWhileDisconnected | src/components/portfolio/chatbotConfigure.tsx:110-125 | speech-end after call-end leaves the state thinking while disconnected; nothing displays it, since the label is drawn only while connected (line 205) |
| VoiceWidget.SpeakingCarriesIntoNextCall | src/components/portfolio/chatbotConfigure.tsx:104-118 | call-start does not clear the speaking flag: after call-end, speech-start and call-start the widget is connected and its label reads "Assistant Speaking" |
| VoiceWidget.CallScenario | src/components/portfolio/chatbotConfigure.tsx:105-157 | start, call-start, speech-start, speech-end, then the timer: connected and listening again |
| VoiceWidget.VapiWidgetView.constructor | src/components/portfolio/chatbotConfigure.tsx:94-98 | no instance, all flags false, empty transcript |
| VoiceWidget.VapiWidgetView.MountEffect | src/components/portfolio/chatbotConfigure.tsx:101-103 | the new state is Mount of the old one |
| VoiceWidget.VapiWidgetView.Handle | src/components/portfolio/chatbotConfigure.tsx:105-139 | each handler updates the fields as OnEvent does and keeps speaking and thinking exclusive; exactly speech-end returns a timer delay, and that delay is 1200 ms |
| VoiceWidget.VapiWidgetView.StartCallButton | src/components/portfolio/chatbotConfigure.tsx:152-157 | called only while not connected, as the mic button is rendered (lines 174-201); the new state and the request are those of StartCall |
| VoiceWidget.VapiWidgetView.EndCallButton | src/components/portfolio/chatbotConfigure.tsx:159-163 | callable in any state, including while the window animates out after `call-end` (lines 204-233); the request is EndCall's, and no state changes |
| VoiceWidget.VapiWidgetView.Unmount | src/components/portfolio/chatbotConfigure.tsx:141-143 | cleanup always requests a stop |
| PortfolioLayout.FirstHit | src/components/portfolio/portfolio-layout.tsx:30-39 | the index found is of an existing element holding the position, and no earlier element holds it; none is found iff no element holds it |
| PortfolioLayout.SpiedSection | src/components/portfolio/portfolio-layout.tsx:27-39 | the active section afterwards is the previous one or one of the five sections; which one is given by SpiedSectionChoice: the first section in page order whose element holds the probe point |
| PortfolioLayout.SpiedSectionChoice | src/components/portfolio/portfolio-layout.tsx:27-39 | the active section either stays the same (no element holds scrollY + 100) or becomes a section whose element exists and holds that point; of several holders, the first in page order is chosen |
| PortfolioLayout.DisjointSectionsPickTheHolder | src/components/portfolio/portfolio-layout.tsx:27-36 | when exactly one element holds the probe point, that section becomes active |
| PortfolioLayout.Toggled | src/components/portfolio/portfolio-layout.tsx:56-58 | toggling always changes the theme |
| PortfolioLayout.ToggleTwiceRestores | src/components/portfolio/portfolio-layout.tsx:56-58 | toggling twice restores the theme |
| PortfolioLayout.RemoveTokens | src/components/portfolio/portfolio-layout.tsx:20 | a class survives iff it was present and is not one of the removed tokens; with none of them present the list is unchanged |
| PortfolioLayout.AddToken | src/components/portfolio/portfolio-layout.tsx:21 | the classes afterwards are those before plus the token |
| PortfolioLayout.ThemedClasses | src/components/portfolio/portfolio-layout.tsx:18-22 | afterwards "light" is present iff the theme is light and "dark" iff it is dark; ThemedClassesSpec adds that unrelated classes are kept |
| PortfolioLayout.ThemedClassesSpec | src/components/portfolio/portfolio-layout.tsx:18-22 | afterwards the root has the current theme's class, not the other one, and every unrelated class as before |
| PortfolioLayout.Layout.constructor | src/components/portfolio/portfolio-layout.tsx:14-15 | the active section starts as "hero" and the theme as dark |
| PortfolioLayout.Layout.HandleScroll | src/components/portfolio/portfolio-layout.tsx:25-40 | the loop with its break sets the active section to the first hit, or leaves it unchanged |
| PortfolioLayout.Layout.ToggleTheme | src/components/portfolio/portfolio-layout.tsx:56-58 | the theme becomes the other one |
| PortfolioLayout.Layout.ApplyTheme | src/components/portfolio/portfolio-layout.tsx:18-22 | the root classes become the themed classes; the current theme is present and the other absent |
| Navigation.OnScroll | src/components/portfolio/smooth-scroll-navigation.tsx:33-47 | the menu flag is untouched and the previous position becomes the event's position; the two flags are given by OnScrollVisibility |
| Navigation.OnScrollVisibility | src/components/portfolio/smooth-scroll-navigation.tsx:37-44 | the bar is hidden iff the position grew and is past 100; scrolled iff past 50 |
| Navigation.RunScrollDependsOnLastTwo | src/components/portfolio/smooth-scroll-navigation.tsx:33-47 | after any non-empty run of scroll events only the last two positions decide the flags, and the previous position is the last one |
| Navigation.ToggledMenu | src/components/portfolio/smooth-scroll-navigation.tsx:58-60 | toggling negates the menu flag and changes nothing else |
| Navigation.ToggleMenuTwiceRestores | src/components/portfolio/smooth-scroll-navigation.tsx:58-60 | toggling twice restores the state |
| Navigation.AtMostOneHighlighted | src/components/portfolio/smooth-scroll-navigation.tsx:14-19 | the item ids are distinct, so at most one item is highlighted |
| Navigation.DefaultHighlightsAbout | src/components/portfolio/smooth-scroll-navigation.tsx:14-23 | with the default active section "about", exactly the first item is highlighted |
| Navigation.HighlightedIffItem | src/components/portfolio/smooth-scroll-navigation.tsx:105 | some item is highlighted iff the active section is one of the four item ids |
| Navigation.NavigationBar.constructor | src/components/portfolio/smooth-scroll-navigation.tsx:27-30 | not scrolled, menu closed, previous position 0, visible |
| Navigation.NavigationBar.HandleScroll | src/components/portfolio/smooth-scroll-navigation.tsx:33-47 | the fields updated in place equal OnScroll of the old state |
| Navigation.NavigationBar.HandleNavClick | src/components/portfolio/smooth-scroll-navigation.tsx:53-56 | the section id is forwarded unchanged and the menu ends closed |
| Navigation.NavigationBar.ToggleMobileMenu | src/components/portfolio/smooth-scroll-navigation.tsx:58-60 | the new state is ToggledMenu of the old one |
| Projects.FilterByCategory | src/components/portfolio/projects-section.tsx:114 | the result is no longer than the list; each project occurs in it as often as in the list if it has the category, and otherwise not at all; the result is a subsequence of the list |
| Projects.FilterByCategoryMembers | src/components/portfolio/projects-section.tsx:114 | a project is kept iff it is in the list and has the category; nothing is kept iff no project has it |
| Projects.Filtered | src/components/portfolio/projects-section.tsx:112-114 | the shown list is an order-preserving selection from the list, never longer, holding only listed projects; FilteredSpec says exactly which |
| Projects.FilteredProjects | src/components/portfolio/projects-section.tsx:112-114 | the grid holds at most the six projects and only projects from the list |
| Projects.FilteredSpec | src/components/portfolio/projects-section.tsx:112-114 | "All" yields the full list; any other category yields exactly its projects, in list order and with their multiplicities |
| Projects.BackendOnlyUnderAll | src/components/portfolio/projects-section.tsx:44-51 | the project in category "Backend" is shown under no filter button except "All" |
| Projects.DataScienceShowsNothing | src/components/portfolio/projects-section.tsx:104 | the "Data Science" button shows no project |
| Projects.IconFor | src/components/portfolio/projects-section.tsx:78-102 | the icon is the table's entry for the name if it has one, otherwise Code |
| Projects.IconLookupIsExact | src/components/portfolio/projects-section.tsx:341 | the lookup uses the exact name: "Nodejs" falls back to Code, while "Node.js" would be Server |
| Projects.ProjectsSection.constructor | src/components/portfolio/projects-section.tsx:107-108 | no card is hovered and the category is "All" |
| Projects.ProjectsSection.SelectCategory | src/components/portfolio/projects-section.tsx:185 | the selected category becomes the clicked one, the hover is kept, and the grid shows that category's filtered projects |
| Projects.ProjectsSection.MouseEnter | src/components/portfolio/projects-section.tsx:210 | the hovered project becomes the card's id |
| Projects.ProjectsSection.MouseLeave | src/components/portfolio/projects-section.tsx:211 | no card is hovered |

## Left out

- ContactForm.ContactSection.HandleSubmit: it is modelled on every field value, including values the browser itself would block before any submit handler runs. The form has no `noValidate`, all three fields are `required`, and the e-mail input has `type="email"`, which also strips line breaks and surrounding ASCII white space from its value (contact-section.tsx lines 39, 91, 239-266). So `EmptyFormErrors` and the "Email is required" branch describe inputs the page never actually submits. The browser's own constraint validation is not modelled.
- **Animations:** all animation props, transitions and variants, and the randomly placed background particles. These are rendering and floating-point concerns.
- **The request in `handleSubmit`:** the endpoint, the query string and `encodeURIComponent` are left out. The request is represented by the plain text it carries, and its outcome is an input.
- **The voice SDK's own behaviour:** `start` and `stop` are requests returned as data, and the SDK's callbacks are an input sequence of events.
- **Re-mounting the widget when its API key changes:** not modelled.
- **Timers:** `setTimeout` and `clearTimeout` run in real time in the source. Here a timer's expiry is a discrete event, and its delay is an integer result (`Typewriter.Delay`, `VoiceWidget.ThinkingWindowMs`).
- **The typewriter's timer cleanup on re-render:** not modelled as such. Exactly one branch is scheduled per state, and a tick is that branch firing.
- **The DOM:** `getElementById`, `scrollIntoView`, the scroll listeners and the smooth scrolling itself are replaced by the scroll position and a map from element id to box, passed in. Fractional scroll values are not modelled; positions are integers.
- **`handleNavClick`'s callback:** the optional `onNavigate` callback is represented by returning the section id. The case where no callback was passed is not separate.
- **`Navigation.NavigationBar.HandleScroll`:** the listener is re-registered whenever `prevScrollY` changes. The model does not capture this; each event sees the latest `prevScrollY`.
- **`Projects.IconFor`:** looking up a name such as "constructor" would hit a JavaScript prototype key, and this lookup does not model that. Only the table's own 23 entries and the `Code` fallback are modelled.
- **`JsText.Trim` and the e-mail check:** both work on Unicode scalar values rather than on UTF-16 code units, so lone surrogates are outside the model. `.length` is still counted in UTF-16 code units (`JsText.Utf16Length`).
- **Files outside the six components above:** `about-section.tsx`, `experience-section.tsx`, `chatbot.tsx`, `src/app/layout.tsx` and `next.config.ts` are not part of this model. They hold static content, metadata, an environment-variable lookup and build configuration.
