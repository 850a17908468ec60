# career-compass: a verified model of the client-side logic

career-compass is a career-learning web application. A five-step
onboarding wizard collects a user's name, experience level, domain, prior
skills and target role. Sign-up and sign-in go through a validated modal
form. The dashboard holds a mentor chat panel.

The client also ships a catalog of six-skill learning roadmaps, one per
domain, and an initializer that marks each skill *completed*, *current* or
*locked* from a user's prior skills. In the client source that exists,
nothing wires these up:

- `initializeRoadmap` has no caller.
- The wizard's last Next navigates to the dashboard without storing the
  answers (src/pages/Onboarding.tsx:54-61).
- The dashboard draws a fixed four-step demo roadmap
  (src/pages/Dashboard.tsx:29-74, 225).
- The dashboard renders the mentor panel without properties
  (src/pages/Dashboard.tsx:234). The panel's context is therefore always
  the defaults: no domain, skill or role, no completed skills and 0%
  progress.

The model below covers the catalog, the initializer and the mentor panel
for any context. These are the behaviours the code defines, whether or not
the current pages reach them.

This project models in Dafny the four places where that application has
logic of its own:

- **Roadmaps** (`roadmaps.dfy`) covers the catalog of six domain curricula
  and `initializeRoadmap`. The initializer resolves a domain, falling back
  to the web curriculum. It marks every skill that a prior skill matches
  as completed, using case-insensitive substring inclusion in either
  direction. The first unmatched skill becomes current and the rest are
  locked. The model is made of pure functions over sequences of records,
  plus lemmas.
- **Onboarding** (`onboarding.dfy`) covers the wizard. The `Wizard` class
  holds the step counter and the form. Its methods are Next and Back, the
  guarded Next button, and the field setters, including the domain choice
  that resets skills and role. Pure functions give the per-step gate, the
  skill toggle, the domain-indexed choice lists and the displayed
  percentage.
- **Auth** (`auth.dfy`) covers the modal form. The `AuthModal` class holds
  the mode, the three fields and the message table. `ValidateForm` builds
  the messages field by field, `HandleInputChange` stores a value and clears
  that field's message, and `HandleSubmit` is the validation gate of the
  submit handler. A separate predicate is the boolean formulation that
  enables the submit button, and a lemma proves the two formulations agree.
- **Mentor** (`mentor.dfy`) covers the chat panel. It models the
  keyword-and-progress fallback reply and the cascade that picks the
  assistant's text from the backend's answer. The `MentorChat` class holds
  the message list, with a blank-input guard on sending.

`text.dfy` models the JavaScript string operations all four rely on:
`toLowerCase`, `trim`, `includes`, number interpolation and `join`. It
works over ASCII. `wrappers.dfy` holds an `Option` type.

## Model

| member | source | states |
|---|---|---|
| Text.LowerSpec | src/data/roadmaps.ts:357-358 | lower-casing keeps the length, leaves no upper-case letter, keeps every other character in place, and sends each letter to the same letter in lower case |
| Text.LowerIdempotent | src/data/roadmaps.ts:357-358 | lower-casing an already lower-cased string changes nothing |
| Text.TrimStart | src/components/auth/AuthModal.tsx:36-38 | the result is a suffix of the input; only a blank prefix was removed, and the result does not start with whitespace |
| Text.TrimEnd | src/components/auth/AuthModal.tsx:36-38 | the result is a prefix of the input; only a blank suffix was removed, and the result does not end with whitespace |
| Text.TrimEmptyIffBlank | src/components/auth/AuthModal.tsx:36 | a string trims to the empty string exactly when every character is whitespace, so `!s.trim()` means "blank" |
| Text.ContainsSpec | src/data/roadmaps.ts:357-358 | `includes` holds exactly when the needle occurs at some position of the haystack |
| Roadmaps.TechWellFormed | src/data/roadmaps.ts:17-70 | the web curriculum is stored under "tech" and has six skills, all locked, numbered 1..6, with distinct ids |
| Roadmaps.DataWellFormed | src/data/roadmaps.ts:71-124 | the same invariant for the "data" curriculum |
| Roadmaps.DesignWellFormed | src/data/roadmaps.ts:125-178 | the same invariant for the "design" curriculum |
| Roadmaps.BusinessWellFormed | src/data/roadmaps.ts:179-232 | the same invariant for the "business" curriculum |
| Roadmaps.MarketingWellFormed | src/data/roadmaps.ts:233-286 | the same invariant for the "marketing" curriculum |
| Roadmaps.FinanceWellFormed | src/data/roadmaps.ts:287-340 | the same invariant for the "finance" curriculum |
| Roadmaps.CatalogWellFormed | src/data/roadmaps.ts:16-341 | the catalog has exactly the six domain keys, and every entry satisfies the invariant |
| Roadmaps.ResolveFallback | src/data/roadmaps.ts:344 | an unknown domain gives exactly the "tech" result; a known domain gives its own curriculum, same length and same ids in order |
| Roadmaps.AssignStatuses | src/data/roadmaps.ts:346-378 | the output has the catalog list's length, and each element equals its catalog skill in every field but `status` |
| Roadmaps.FirstIncomplete | src/data/roadmaps.ts:366-372 | the `findIndex` result is -1 exactly when every skill is matched; otherwise it is an unmatched index with every earlier skill matched |
| Roadmaps.EmptyPriorSkills | src/data/roadmaps.ts:348-353 | with no prior skills, every domain yields current, then five locked |
| Roadmaps.MatchesSymmetric | src/data/roadmaps.ts:356-359 | the matching rule is symmetric in its two strings |
| Roadmaps.CompletedIffMatched | src/data/roadmaps.ts:356-363 | with prior skills, a skill is completed exactly when some prior skill matches it |
| Roadmaps.CurrentIsFirstUnmatched | src/data/roadmaps.ts:365-377 | with prior skills, a skill is current exactly when it is unmatched and every earlier skill is matched |
| Roadmaps.AtMostOneCurrent | src/data/roadmaps.ts:346-377 | no two skills of one result are both current |
| Roadmaps.BeforeCurrentCompleted | src/data/roadmaps.ts:346-377 | every skill before the current one is completed |
| Roadmaps.AllMatchedNoCurrent | src/data/roadmaps.ts:361-372 | when every skill is matched, all are completed and none is current |
| Roadmaps.LaterUnmatchedLocked | src/data/roadmaps.ts:366-377 | an unmatched skill after an earlier unmatched one is locked |
| Roadmaps.NoMatchesSameAsEmpty | src/data/roadmaps.ts:346-377 | prior skills that match nothing give the same roadmap as no prior skills |
| Roadmaps.EmptyEntryCompletesAll | src/data/roadmaps.ts:356-359 | an empty prior-skill entry is included in every name, so it completes every skill |
| Roadmaps.TechScenario | src/data/roadmaps.ts:343-379 | ("tech", ["HTML", "CSS"]) gives completed, completed, current, locked, locked, locked |
| Roadmaps.OneLetterPriorMatches | src/data/roadmaps.ts:356-359 | the prior skill "R" matches the skill "Projects", because matching is by inclusion |
| Onboarding.DomainTablesAgree | src/pages/Onboarding.tsx:8-39 | the wizard's domain ids, its skill table, its role table and the roadmap catalog all have the same six keys |
| Onboarding.ChoicesFallBack | src/pages/Onboarding.tsx:222-253 | an unknown domain shows the "tech" skills and roles; a known one shows its own eight skills and six roles |
| Onboarding.Without | src/pages/Onboarding.tsx:73 | filtering out a skill keeps exactly the other members and never lengthens the list |
| Onboarding.ToggleFlipsMembership | src/pages/Onboarding.tsx:69-76 | toggling flips the membership of the toggled skill and leaves every other skill's membership unchanged |
| Onboarding.ToggleAppendsAtEnd | src/pages/Onboarding.tsx:72-74 | an absent skill is appended at the end |
| Onboarding.ToggleKeepsDistinct | src/pages/Onboarding.tsx:72-74 | toggling keeps a duplicate-free list duplicate-free |
| Onboarding.ToggleTwiceRestores | src/pages/Onboarding.tsx:72-74 | selecting and then deselecting a skill that was not selected restores the list exactly |
| Onboarding.CanProceedMeaning | src/pages/Onboarding.tsx:78-93 | step 1 needs a non-blank name; steps 2, 3 and 5 need a non-empty experience, domain or role; step 4 needs a skill; any other step is refused |
| Onboarding.StepPercent | src/pages/Onboarding.tsx:108 | the rounded percentage for steps 1..5 is exactly 20 times the step, between 20 and 100 |
| Onboarding.Wizard.constructor | src/pages/Onboarding.tsx:43-50 | the wizard starts at step 1 with an empty form |
| Onboarding.Wizard.HandleNext | src/pages/Onboarding.tsx:54-61 | Next increments the step only below 5, and leaves for the dashboard exactly at step 5; the step stays within 1..5 |
| Onboarding.Wizard.HandleBack | src/pages/Onboarding.tsx:63-67 | Back decrements the step only above 1; the step stays within 1..5 |
| Onboarding.Wizard.PressNext | src/pages/Onboarding.tsx:288-291 | the Next button does nothing while the current step's gate is closed; otherwise it increments the step below 5, and at step 5 keeps the step and leaves for the dashboard |
| Onboarding.Wizard.SetName | src/pages/Onboarding.tsx:140 | typing a name changes only the name |
| Onboarding.Wizard.ChooseExperience | src/pages/Onboarding.tsx:160 | picking a level changes only the experience |
| Onboarding.Wizard.ChooseDomain | src/pages/Onboarding.tsx:196 | picking a domain sets it, empties skills and role, and keeps name and experience |
| Onboarding.Wizard.ToggleSkill | src/pages/Onboarding.tsx:225 | a skill button toggles that skill and keeps the list duplicate-free |
| Onboarding.Wizard.ChooseRole | src/pages/Onboarding.tsx:256 | picking a role changes only the role |
| Auth.UsernameRule | src/components/auth/AuthModal.tsx:35-41 | in sign-up mode the username message is "required" exactly when blank, and "at least 3" exactly when the trimmed length is 1 or 2; sign-in never sets one |
| Auth.EmailRule | src/components/auth/AuthModal.tsx:43-49 | the first failing email check is reported: blank, then raw length below 13, then the address pattern |
| Auth.PasswordRule | src/components/auth/AuthModal.tsx:51-55 | the password message is "required" exactly when empty, and "at least 6" exactly when 1 to 5 characters long |
| Auth.EmailPatternNotBlank | src/components/auth/AuthModal.tsx:43-47 | an address matching the pattern is never blank, so the pattern check can only fail after the blank check passed |
| Auth.ValidationAgreesWithIsFormValid | src/components/auth/AuthModal.tsx:32-98 | the message table is empty exactly when the boolean formulation holds, in both modes |
| Auth.SignInIgnoresUsername | src/components/auth/AuthModal.tsx:93-97 | in sign-in mode the username changes neither the messages nor the verdict |
| Auth.SignUpStricter | src/components/auth/AuthModal.tsx:84-97 | a valid sign-up form is a valid sign-in form, and a short username separates the two |
| Auth.WithValue | src/components/auth/AuthModal.tsx:101 | setting one field changes that field and no other |
| Auth.Cleared | src/components/auth/AuthModal.tsx:104 | clearing one field's message clears that one and no other |
| Auth.SwitchedInvolution | src/components/auth/AuthModal.tsx:247 | toggling the mode twice restores it |
| Auth.AuthModal.constructor | src/components/auth/AuthModal.tsx:22-30 | the modal opens in sign-up mode with empty fields and no messages |
| Auth.AuthModal.ValidateForm | src/components/auth/AuthModal.tsx:32-59 | the message table becomes the per-field rules' result, and the verdict is true exactly when it is empty, which is exactly the boolean formulation |
| Auth.AuthModal.HandleSubmit | src/components/auth/AuthModal.tsx:61-81 | submitting validates first; only a valid form produces the mode's toast and a user record whose empty username is stored as "User" |
| Auth.AuthModal.HandleInputChange | src/components/auth/AuthModal.tsx:100-106 | typing sets only that field, and clears only that field's message, and only when one is shown |
| Auth.AuthModal.ToggleMode | src/components/auth/AuthModal.tsx:247 | the link switches sign-up and sign-in |
| Mentor.TopicPrecedence | src/components/dashboard/MentorChat.tsx:42-64 | each branch is taken exactly when its keywords occur in the lower-cased message and no earlier pair's do |
| Mentor.TopicIgnoresCase | src/components/dashboard/MentorChat.tsx:42 | the branch does not depend on letter case |
| Mentor.NextWinsOverOtherKeywords | src/components/dashboard/MentorChat.tsx:44-48 | a message containing "learn" gets the next-step reply, whatever else it contains |
| Mentor.ReadinessBands | src/components/dashboard/MentorChat.tsx:50-56 | the readiness reply is the low text exactly below 30%, the middle text exactly from 30% to below 70%, and the near-ready text exactly from 70% up |
| Mentor.LastTwoSuffix | src/components/dashboard/MentorChat.tsx:64 | the general reply names the last two completed skills, or all of them if there are fewer, in their original order, and none when there are none |
| Mentor.ReplyPrecedence | src/components/dashboard/MentorChat.tsx:90-100 | the assistant's text is the answer, else string data, else "Error: ...", else the local reply, in that order |
| Mentor.SuccessNeverFallsBack | src/components/dashboard/MentorChat.tsx:91-93 | a successful reply with data uses its answer, its string or its serialised form, never the error or the local reply |
| Mentor.MentorChat.constructor | src/components/dashboard/MentorChat.tsx:22-30 | the panel opens with the one greeting and an empty, idle input |
| Mentor.MentorChat.SetInput | src/components/dashboard/MentorChat.tsx:173 | typing replaces the input |
| Mentor.MentorChat.BeginSend | src/components/dashboard/MentorChat.tsx:67-87 | a blank input changes nothing; otherwise the user message is appended at the end, the box is cleared, typing is shown, and the request carries the domain (default "general") and the question |
| Mentor.MentorChat.FinishSend | src/components/dashboard/MentorChat.tsx:88-118 | the chosen assistant text is appended at the end and typing is hidden, on success and on a thrown request alike |

## Left out

- Unicode: lower-casing changes only `A`-`Z`. Whitespace for `trim` is
  space, tab, line feed, carriage return, vertical tab and form feed. The
  JavaScript whitespace set also includes no-break and other Unicode
  spaces.
- String length: JavaScript's `.length` counts UTF-16 code units, but the
  model counts characters. The two differ outside the Basic Multilingual
  Plane, so the username, email and password length rules (3, 13 and 6)
  agree with the application only for text inside that plane.
- Domain lookups use a map. In the application, a key inherited from the
  object prototype, such as "constructor", would be found and would break
  the roadmap fallback and the choice lists. The model treats such a key
  as unknown.
- Floating point: `Math.round((step / 5) * 100)` is computed with
  integer round-half-up division (`RoundDiv`). This is exact for steps
  1..5. The bar's unrounded width is not modelled.
- The mentor's progress is an integer. A fractional percentage
  interpolated into a reply is not modelled.
- Mentor.MentorChat.BeginSend and FinishSend: the network request, JSON
  decoding, the backend URL and the backend itself are not modelled. The
  request's outcome is a parameter, either a parsed reply or a thrown
  error. Sending while a reply is pending is allowed, as in the
  application. The two halves can interleave, and the first reply to
  arrive hides the typing indicator.
- The mentor reply's `data` and `error` fields are abstract. Data is
  absent, a string, or another value with an optional truthy `answer` and
  its serialised form. An error is absent or its rendered text.
- Auth.AuthModal.HandleSubmit: the 1.5-second delay, the loading flag,
  the write of the user record to browser storage, closing the modal and
  the navigation to onboarding are not modelled. The method returns the
  toast text and the record instead.
- Message ids built from the clock, scrolling, animation, the password
  visibility switch, and React rendering are not modelled.
- The regular expression `^[^\s@]+@[^\s@]+\.[^\s@]+$` is written as a
  predicate (`EmailPattern`). It names the positions of `@` and `.`, with
  non-empty runs of non-space, non-`@` characters between them. Regex
  backtracking is not modelled.
- The dashboard, roadmap views, gauges, landing sections, Firebase
  configuration, authentication stubs and the backend server are
  presentation or glue and are not part of this model.
- Completing a skill after initialization, sub-topics and a progress
  percentage derived from completions are described for the application,
  but no code for them exists in the client source. `RoadmapSkill` has no
  sub-topic field. The model follows the code and leaves them out.
