# Emotion tracker client: the rules behind the screens

This project models the logic of a React Native emotion-tracking app whose
backend is Supabase, together with a face-expression model and two chat
models reached over HTTP. The app lets a user sign in, photograph their
face, store the recognised emotion, browse the history, see weekly
statistics with a "happiness index", ask an assistant for advice and
request a weekly report. Most of the code is user interface. Spread
through the screens are small rules with exact orders, thresholds and
state updates, and those rules are what is modelled and proved here:

- **Validators.** Password strength, the two password checks, the e-mail
  pattern, the OTP check and the error-message tables.
- **Text.** The Russian phone mask, two colour parsers, label
  normalisation and translation, and the tokens carried in the fragment of
  an auth callback link.
- **Aggregates.** The emotion tally and its sort, the happiness index and
  the weekly-report prompt.
- **Screen state.** The capped photo list, the paging of the history and
  the chat, the choice between the sign-in stack and the main tabs, and the
  stored light/dark theme.

Backend answers, camera and picker results, storage failures and user
choices in confirmation dialogs are parameters of the operations. A
screen that changes state is a class whose fields are the screen's state.
Its methods append what the screen asks of the outside world (toasts,
navigation, backend calls) to an `effects` sequence.

Two consequences across files are proved:
- The face analysis only ever stores Russian labels, and the statistics
  screen looks its weights up by English keys after lower-casing. So any
  non-empty week of stored rows gets happiness index 50, whatever the
  emotions (`FaceAnalysis.StoredLabelsIndexFifty`). This is the code as
  written; the model keeps it.
- The history screen's page counter after a refresh makes the first
  load-more fetch the first page again (see Findings).
- The assistant chat's load-more handler is memoised on the page and the
  more-flag only, so it keeps the "history loading" flag from the first
  render and never loads a further page (see Findings).

`App.tsx` has no password-recovery route and does not read the launch URL,
so the session controller is modelled with the two stacks and the
fragment-token deep link only.

Modules: `Wrappers` (options, query results, lookup), `Strings`
(ECMAScript string operations), `Tally` (the counting reduce and the sort
by count), and one module per source file:

- `PasswordStrength`: hooks/usePasswordStrength.ts
- `ChangePassword`: screens/ChangePasswordScreen.tsx
- `PasswordReset`: screens/PasswordResetScreen.tsx
- `Email`, `AuthScreen`: screens/AuthScreen.tsx
- `RootProfileScreen`: ProfileScreen.tsx
- `ProfileScreen`: screens/ProfileScreen.tsx
- `StatsScreen`: screens/StatsScreen.tsx
- `RootStatsScreen`: StatsScreen.tsx
- `FaceAnalysis`: endpointhf.tsx
- `WeeklyReport`: endpoinbx.tsx
- `HomeScreen`: screens/HomeScreen.tsx
- `HistoryScreen`: screens/HistoryScreen.tsx
- `ChatScreen`: screens/AssistantChatScreen.tsx
- `AppContent`: App.tsx
- `ThemeContext`: context/ThemeContext.tsx

## Model

| member | source | states |
|---|---|---|
| PasswordStrength.Initial | hooks/usePasswordStrength.ts:6-7 | before any evaluation the band is weak and its text is 'Слишком простой' |
| PasswordStrength.Score | hooks/usePasswordStrength.ts:10-18 | the score is at most 5; below 8 characters it is at most 3; with neither a digit nor one of `!@#$%^&*` it is at most 2 |
| PasswordStrength.Evaluate | hooks/usePasswordStrength.ts:20-29 | band and text are always set together and agree; strong exactly when the score is at least 4, weak exactly when it is below 2 |
| PasswordStrength.Band | hooks/usePasswordStrength.ts:20-29 | strong exactly from a score of 4, weak exactly below 2, medium in between |
| PasswordStrength.TextOfInjective | hooks/usePasswordStrength.ts:20-29 | the three texts differ, so the text shown tells the band |
| PasswordStrength.ShortNeverStrong | hooks/usePasswordStrength.ts:14-20 | a password shorter than 8 characters is never strong |
| PasswordStrength.PlainNeverStrong | hooks/usePasswordStrength.ts:14-20 | a password with no digit and no special character is never strong, however long |
| PasswordStrength.ScoreMonotone | hooks/usePasswordStrength.ts:10-18 | appending a character never lowers the score |
| PasswordStrength.StrengthMonotone | hooks/usePasswordStrength.ts:10-29 | appending a character never lowers the band |
| PasswordStrength.BarWidth | screens/ChangePasswordScreen.tsx:136 | the strength bar is 33, 66 or 100 percent wide, and full exactly for a strong password |
| PasswordStrength.FilledSegments | screens/AuthScreen.tsx:389 | the sign-up form colours one to three segments |
| PasswordStrength.DrawingsFollowRank | screens/PasswordResetScreen.tsx:112 | a higher band always draws a wider bar and more segments |
| ChangePassword.Validate | screens/ChangePasswordScreen.tsx:38-51 | the checks run in the order length, digit, confirmation, difference from the current password; each message is returned exactly when its check is the first to fail, and nothing is returned exactly when all four hold |
| ChangePassword.ReactToError | screens/ChangePasswordScreen.tsx:75-84 | the user is signed out exactly when the error is an `Error` whose message contains 'JWT expired', and a sign-out always comes with the session-expired toast; otherwise the toast is 'Ошибка: ' followed by the message, or by 'Неизвестная ошибка' for a non-`Error` |
| ChangePassword.UnknownErrorIsNotExpiry | screens/ChangePasswordScreen.tsx:76-78 | the fallback text never counts as an expired token |
| ChangePassword.ChangePasswordScreen.constructor | screens/ChangePasswordScreen.tsx:21-24 | all three fields start empty and nothing is loading |
| ChangePassword.ChangePasswordScreen.HandleChangePassword | screens/ChangePasswordScreen.tsx:53-73 | a failed check shows its message and calls nothing; otherwise exactly one update carrying only the new password is sent, followed by the success toast and the delayed go-back, or by the error reaction; loading ends false after every sent update |
| ChangePassword.SentPasswordIsValid | screens/ChangePasswordScreen.tsx:54-61 | a password that is sent passed all four checks, so it differs from the current one, which is compared locally only |
| PasswordReset.Validate | screens/PasswordResetScreen.tsx:29-43 | a different order from the change-password screen: confirmation, then length, then digit; each message is returned exactly when its check is the first to fail |
| PasswordReset.ResetOrder | screens/PasswordResetScreen.tsx:45-63 | exactly one update is sent; the replace to 'Auth' happens only when the update succeeds, and only after the sign-out |
| PasswordReset.ResetEffects | screens/PasswordResetScreen.tsx:47-59 | the update carrying the new password comes first and its toast second (failure or success); the sign-out and the final replace to 'Auth' appear exactly when the update succeeds |
| PasswordReset.PasswordResetScreen.constructor | screens/PasswordResetScreen.tsx:12-14 | both fields start empty and nothing is loading |
| PasswordReset.PasswordResetScreen.HandleReset | screens/PasswordResetScreen.tsx:45-63 | a failed check shows its toast and calls nothing; otherwise the reset sequence runs and loading ends false |
| Email.IsValidEmailMatchesPattern | screens/AuthScreen.tsx:56 | the character-level check accepts exactly the strings `^[^\s@]+@[^\s@]+\.[^\s@]+$` matches |
| Email.ValidMatches | screens/AuthScreen.tsx:78 | every accepted address matches the pattern |
| Email.MatchesValid | screens/ProfileScreen.tsx:161 | every address that matches the pattern is accepted |
| Email.SpaceInvalid | screens/AuthScreen.tsx:78 | whitespace anywhere makes an address invalid |
| AuthScreen.AuthErrorPassThrough | screens/AuthScreen.tsx:136-149 | a message is shown unchanged exactly when it is not one of the four known backend messages; a translation is never itself a known message, so translating twice changes nothing |
| AuthScreen.FailureMessage | screens/AuthScreen.tsx:126-130 | a rejection that is not an `AuthError` reads 'Ошибка аутентификации'; an `AuthError` with an unknown message shows that message, one with a known message never shows the raw message |
| AuthScreen.EmailAuthGuard | screens/AuthScreen.tsx:77-91 | the guards run in the order e-mail, connection, terms; the terms are required only to sign up; the call goes through exactly when all apply |
| AuthScreen.SignUpOutcomes | screens/AuthScreen.tsx:111-125 | a sign-up whose user has an empty identity list only reports the address as taken; one with a user but no session replaces to 'Auth'; every other success ends by replacing to 'Home' |
| AuthScreen.SignInAlwaysHome | screens/AuthScreen.tsx:111 | a successful sign-in ignores identities and session and always replaces to 'Home' (also lines 124-125) |
| AuthScreen.AfterAccepted | screens/AuthScreen.tsx:111-125 | every success starts with a toast; it replaces to 'Home' unless it is a sign-up with a user whose identity list is empty or who has no session, both ways; only the empty identity list gives a lone toast |
| AuthScreen.ListenerRuns | screens/AuthScreen.tsx:31-36 | an event with a session makes each registered listener toast and navigate to 'Home' once; an event without one does nothing |
| AuthScreen.UrlListenerRuns | screens/AuthScreen.tsx:41-45 | a URL containing '/auth/callback' makes each registered URL listener navigate to 'Home' once; any other URL does nothing |
| AuthScreen.OAuthStaysOnScreen | screens/AuthScreen.tsx:151-178 | OAuth never navigates inside the app; it opens at most one URL, the one the backend returned; it ends with a toast unless no URL came back |
| AuthScreen.OAuthFailureMessage | screens/AuthScreen.tsx:170-174 | an `AuthError` shows its own message; any other failure names Google exactly when the provider is Google |
| AuthScreen.OAuthEffects | screens/AuthScreen.tsx:165-174 | at most two effects, ending with a toast whenever there is one; two (open, then toast) exactly when the backend returned a non-empty URL |
| AuthScreen.AuthScreenState.constructor | screens/AuthScreen.tsx:16-25 | sign-in mode, reset form hidden, empty fields, online, terms not accepted |
| AuthScreen.AuthScreenState.Mount | screens/AuthScreen.tsx:30-48 | the two duplicated effect pairs register two auth listeners and two URL listeners (also lines 180-198); no other field changes |
| AuthScreen.AuthScreenState.Unmount | screens/AuthScreen.tsx:37 | the cleanups remove the listeners the mount added (also lines 47, 187, 197); no other field changes |
| AuthScreen.AuthScreenState.OnAuthStateChange | screens/AuthScreen.tsx:31-36 | every registered listener reacts, so one sign-in toasts and navigates twice (also lines 181-186); only the effects change |
| AuthScreen.AuthScreenState.OnUrl | screens/AuthScreen.tsx:41-47 | every registered URL listener reacts (also lines 191-197); only the effects change |
| AuthScreen.AuthScreenState.PressSignInMode | screens/AuthScreen.tsx:302-305 | sign-in mode, reset form hidden |
| AuthScreen.AuthScreenState.PressSignUpMode | screens/AuthScreen.tsx:312-315 | sign-up mode, reset form hidden |
| AuthScreen.AuthScreenState.SetResetFormVisible | screens/AuthScreen.tsx:345 | the reset form is shown or hidden as asked (also line 480) |
| AuthScreen.AuthScreenState.HandleEmailAuth | screens/AuthScreen.tsx:77-134 | a guard that fails shows its toast and calls nothing; otherwise one sign-up call (with names) or one sign-in call, then the outcome's toast and navigation or the error's message; loading ends false |
| AuthScreen.AuthScreenState.HandlePasswordReset | screens/AuthScreen.tsx:55-75 | an invalid address makes no call; a sent e-mail hides the reset form; a failure only toasts; loading ends false |
| AuthScreen.AuthScreenState.HandleOAuth | screens/AuthScreen.tsx:151-178 | offline shows a toast and calls nothing; otherwise one OAuth call for the provider followed by its effects |
| RootProfileScreen.Clean | ProfileScreen.tsx:52 | the cleaned text keeps only digits and '+', and is no longer than the input |
| RootProfileScreen.DigitsOf | ProfileScreen.tsx:54 | only digits remain, and the result is no longer than the input |
| RootProfileScreen.CleanIdempotent | ProfileScreen.tsx:52 | cleaning twice is cleaning once |
| RootProfileScreen.FormatPhoneNotRussian | ProfileScreen.tsx:53 | input that does not start with '7' or '+7' once cleaned is returned as cleaned: digits and '+' only (also line 67) |
| RootProfileScreen.PartsAreFirstEleven | ProfileScreen.tsx:55-59 | the five slices, put back together, are exactly the first eleven digits |
| RootProfileScreen.MaskFilters | ProfileScreen.tsx:60-65 | cleaning the mask gives '+' and the first eleven digits; its digits are the first eleven digits |
| RootProfileScreen.MaskIgnoresExtraDigits | ProfileScreen.tsx:55-59 | digits after the eleventh never reach the display |
| RootProfileScreen.RussianLeadsWithSeven | ProfileScreen.tsx:53-54 | the first digit of a cleaned number that starts with '7' or '+7' is 7 |
| RootProfileScreen.FormatPhoneRussian | ProfileScreen.tsx:53-65 | such a number is shown starting with '+7', and its digits are the first eleven digits of the input |
| RootProfileScreen.MaskFullNumber | ProfileScreen.tsx:60-64 | a complete number reads '+7 (AAA) BBB-CC-DD' |
| RootProfileScreen.MaskClosingBracket | ProfileScreen.tsx:61 | the closing bracket appears exactly when the area code has all three digits |
| RootProfileScreen.FormatPhoneIdempotent | ProfileScreen.tsx:51-68 | formatting an already formatted value, as the field does on every change, returns it unchanged (also line 288) |
| RootProfileScreen.Mask | ProfileScreen.tsx:60-65 | the mask always starts with '+' |
| RootProfileScreen.FormatPhone | ProfileScreen.tsx:51-68 | a number that starts with '7' or '+7' once cleaned is shown starting with '+'; anything else is returned as cleaned |
| RootProfileScreen.LastChar | ProfileScreen.tsx:153 | the last character of the typed value, or nothing for an empty value |
| RootProfileScreen.OtpChangeReplaces | ProfileScreen.tsx:151-155 | a non-empty value replaces exactly the one position of the code with its last character |
| RootProfileScreen.OtpChangeDeletes | ProfileScreen.tsx:151-155 | an empty value removes that position and keeps the rest of the code in order |
| RootProfileScreen.OtpChange | ProfileScreen.tsx:151-155 | the characters before the index and after it are kept; the code gains the last typed character in that position (nothing for an empty value); an index past the end appends |
| RootProfileScreen.OtpAcceptedIff | ProfileScreen.tsx:142 | the code is accepted exactly when it is '123456' with only whitespace around it |
| RootProfileScreen.ChangedCells | ProfileScreen.tsx:152-153 | the array of one-character cells after the assignment, with empty holes when the index is past the end |
| RootProfileScreen.JoinCells | ProfileScreen.tsx:154 | the cells joined with no separator |
| RootProfileScreen.JoinChangedCells | ProfileScreen.tsx:151-155 | joining the changed cells gives the changed code, so holes vanish and a cell past the end lands right after the code |
| RootProfileScreen.CountdownStep | ProfileScreen.tsx:129-135 | one tick lowers a positive countdown by one and never goes below 0 |
| RootProfileScreen.CountdownDescends | ProfileScreen.tsx:127-136 | from a start of n the countdown stands at n minus the ticks until it reaches 0, and stays there |
| RootProfileScreen.CountdownAfter | ProfileScreen.tsx:127-136 | after at least one tick the countdown is never negative, and from a start of at most 1 it is 0 |
| RootProfileScreen.ResendAfterSixtyTicks | ProfileScreen.tsx:127 | after a send, resending stays blocked for exactly 60 ticks (also line 297) |
| RootProfileScreen.LogoutToast | ProfileScreen.tsx:162-174 | success shows 'Вы вышли из системы.'; a returned error shows its message after 'Ошибка выхода: '; every failure starts with that prefix |
| RootProfileScreen.RootProfileState.constructor | ProfileScreen.tsx:37-43 | no user, empty phone and code, no code sent, countdown 0 |
| RootProfileScreen.RootProfileState.ChangePhone | ProfileScreen.tsx:288 | the phone field holds the formatted text; nothing else changes |
| RootProfileScreen.RootProfileState.HandleSendOtp | ProfileScreen.tsx:118-138 | an empty phone only toasts; otherwise the code counts as sent and the countdown starts at 60 |
| RootProfileScreen.RootProfileState.Tick | ProfileScreen.tsx:128-136 | the countdown takes one step |
| RootProfileScreen.RootProfileState.HandleVerifyOtp | ProfileScreen.tsx:140-149 | an accepted code clears the sent flag and the code; a rejected one only toasts |
| RootProfileScreen.RootProfileState.HandleOtpChange | ProfileScreen.tsx:151-156 | the code becomes the changed code, computed on an array of cells as the source does |
| RootProfileScreen.RootProfileState.HandleLogout | ProfileScreen.tsx:162-174 | success forgets the user; any failure keeps it; the toast is the one for the result |
| StatsScreen.HexPrefix | screens/StatsScreen.tsx:57-58 | the longest run of hexadecimal digits the text starts with, as `parseInt(…, 16)` reads it |
| StatsScreen.ParseIntHex | screens/StatsScreen.tsx:57-58 | `parseInt(…, 16)` gives NaN exactly when, after leading blanks, a sign and an optional `0x`, no hexadecimal digit follows |
| StatsScreen.ParseRGB | screens/StatsScreen.tsx:56-64 | every channel of the parsed colour is a byte, whatever the text (NaN gives 0) |
| StatsScreen.ParseRGBHexBytes | screens/StatsScreen.tsx:56-64 | for `#rrggbb` the channels are the values of the three hexadecimal byte pairs |
| StatsScreen.HappinessDescription | screens/StatsScreen.tsx:66-72 | the five descriptions partition the index at 80, 60, 40 and 20, each band both ways |
| StatsScreen.DescriptionMonotone | screens/StatsScreen.tsx:66-72 | a higher index never gets a worse description |
| StatsScreen.Band | screens/StatsScreen.tsx:66-72 | ranks the descriptions from 0 to 4; rank 0 exactly for the hardest description or any other text |
| StatsScreen.FindKey | screens/StatsScreen.tsx:118-119 | the reverse lookup of a translation finds nothing exactly when no entry of the table translates to the value |
| StatsScreen.Lowered | screens/StatsScreen.tsx:90 | every emotion of the rows is lower-cased before it is counted, position by position |
| StatsScreen.TranslateAll | screens/StatsScreen.tsx:95-98 | each counted key is replaced by its Russian translation, or kept when it has none; counts and order are kept |
| StatsScreen.ProcessEmotionData | screens/StatsScreen.tsx:88-101 | the result is the lower-cased tally of the rows, translated and sorted by count |
| StatsScreen.TranslateAllTotal | screens/StatsScreen.tsx:95-98 | translating keys keeps the number of rows counted |
| StatsScreen.ProcessedStatsSortedTotal | screens/StatsScreen.tsx:88-101 | the statistics are sorted by count, largest first, and their counts add up to the number of rows |
| StatsScreen.ProcessedStatsEntries | screens/StatsScreen.tsx:88-101 | every entry is the translation of some row's lower-cased emotion with the number of rows having that lower-cased emotion |
| StatsScreen.ProcessedStatsCoverRows | screens/StatsScreen.tsx:88-101 | every row's emotion appears among the entries; there are no entries exactly when there are no rows |
| StatsScreen.WeightOf | screens/StatsScreen.tsx:104-112 | every emotion weighs between -1 and 1 (in tenths), and one without a weight weighs 0 (also line 121) |
| StatsScreen.HappinessIndex | screens/StatsScreen.tsx:103-129 | the loop over the statistics computes the index defined by the weighted sum and `Math.round` |
| StatsScreen.ScoreBounded | screens/StatsScreen.tsx:115-124 | the weighted score lies between minus and plus the number of entries |
| StatsScreen.IndexIsRounded | screens/StatsScreen.tsx:126-128 | the index is `(score + entries) / (2 entries) * 100` rounded half up |
| StatsScreen.HappinessIndexBounds | screens/StatsScreen.tsx:103-129 | there is no index exactly when nothing was counted; otherwise it lies between 0 and 100 |
| StatsScreen.HappinessIndexOfRows | screens/StatsScreen.tsx:88-129 | after processing, the index is missing exactly when there were no rows |
| StatsScreen.CyrillicRowWeighsZero | screens/StatsScreen.tsx:36-44 | a row stored in Russian is neither translated nor found in the reverse lookup, so it weighs 0 (also lines 97, 118-121) |
| StatsScreen.CyrillicStatsWeightless | screens/StatsScreen.tsx:88-124 | rows all stored in Russian give a weighted score of 0 |
| StatsScreen.CyrillicRowsIndexFifty | screens/StatsScreen.tsx:88-129 | any non-empty list of rows stored in Russian yields the neutral index 50, whatever the emotions |
| StatsScreen.StatsScreenState.constructor | screens/StatsScreen.tsx:77-79 | the screen starts with no statistics, not loading, not refreshing |
| StatsScreen.StatsScreenState.FetchStats | screens/StatsScreen.tsx:131-155 | without a user nothing changes; a failed query shows the error's message (or the fallback text) and keeps the statistics; a successful one replaces them with the processed rows; loading and refreshing end false |
| StatsScreen.StatsScreenState.ClearStatistics | screens/StatsScreen.tsx:157-186 | the confirmed delete empties the statistics and shows the success toast, or keeps them and shows the error; loading ends false |
| Tally.IndexOfKey | StatsScreen.tsx:45 | the slot of a key already counted is its first occurrence |
| Tally.TotalSplit | StatsScreen.tsx:44-47 | the number of rows counted adds up over concatenation |
| Tally.TotalUpdate | StatsScreen.tsx:45 | replacing one entry changes the total by the difference of the two counts |
| Tally.BumpEffect | StatsScreen.tsx:45 | one step of the reduce adds one to the key's count if it was counted, or appends it with count 1; keys stay distinct, the others and their order are kept, the total grows by one |
| Tally.TallyCounts | StatsScreen.tsx:44-48 | the tally has distinct keys, each counted exactly as often as it occurs in the rows and at least once, every row's key has an entry, and the counts add up to the number of rows |
| Tally.BumpMirrorsKnown | StatsScreen.tsx:44-47 | bumping a key already present matches adding one to its count in a dictionary, with insertion order unchanged |
| Tally.BumpMirrorsNew | StatsScreen.tsx:44-47 | bumping a new key matches giving it count 1 in a dictionary and appending it to the insertion order |
| Tally.Reduce | StatsScreen.tsx:44-47 | the reduce over a mutable dictionary leaves it holding exactly the tally's entries, keys in first-insertion order |
| Tally.EntriesOf | StatsScreen.tsx:48 | reading the dictionary's entries yields one pair per key, in insertion order, with that key's count |
| Tally.CountByKey | StatsScreen.tsx:44-48 | the loop that counts into a dictionary and lists its entries in insertion order produces the tally |
| Tally.InsertAtMost | StatsScreen.tsx:50 | inserting an entry keeps every count at most a bound both already respect |
| Tally.SortedCons | StatsScreen.tsx:50 | an entry at least as large as a sorted list may head it |
| Tally.InsertSorted | StatsScreen.tsx:50 | inserting into a list sorted by count, largest first, keeps it sorted |
| Tally.InsertPermutes | StatsScreen.tsx:50 | insertion adds exactly the entry |
| Tally.SortByCountDescCorrect | StatsScreen.tsx:50 | the sort by descending count returns a sorted permutation of its input |
| Tally.SortByCountDescStable | StatsScreen.tsx:50 | the sort is stable: for every count, the entries with that count come out in their input order, which fixes which tied emotion heads the list |
| Tally.InsertStable | StatsScreen.tsx:50 | inserting an entry puts it ahead of every entry of its own count and leaves the entries of other counts in their order |
| Tally.InsertTotal | StatsScreen.tsx:50 | insertion adds the entry's count to the total |
| Tally.SortKeepsTotal | StatsScreen.tsx:50 | sorting keeps the number of rows counted |
| RootStatsScreen.DigitPrefix | StatsScreen.tsx:13 | the longest run of decimal digits the text starts with |
| RootStatsScreen.DigitRuns | StatsScreen.tsx:13 | every match of `/\d+/g` is a non-empty run of digits |
| RootStatsScreen.ParseRGB | StatsScreen.tsx:12-22 | fewer than three digit runs give black |
| RootStatsScreen.RunsSkipPlain | StatsScreen.tsx:13 | text without digits contributes no match |
| RootStatsScreen.DigitPrefixOf | StatsScreen.tsx:13 | a match runs up to the first non-digit |
| RootStatsScreen.RunsTakeDigits | StatsScreen.tsx:13 | a leading run of digits is the first match |
| RootStatsScreen.RunsOfRgbText | StatsScreen.tsx:13 | the matches of `rgb(r, g, b)` are the three numbers in order |
| RootStatsScreen.RunsOfLastTwo | StatsScreen.tsx:13 | the matches of `g, b)` are the two numbers |
| RootStatsScreen.ParseRGBText | StatsScreen.tsx:12-22 | parsing the `rgb(r, g, b)` text of a colour gives the colour back |
| RootStatsScreen.FetchedStatsCorrect | StatsScreen.tsx:44-50 | the statistics are sorted by count, largest first, count each emotion exactly as often as it occurs, cover every emotion of the rows and add up to the number of rows |
| RootStatsScreen.TopEmotion | StatsScreen.tsx:59 | 'None' for no statistics, otherwise one of the counted emotions |
| RootStatsScreen.TopEmotionIsMostFrequent | StatsScreen.tsx:44-59 | for a non-empty week the top emotion occurs in the rows and no emotion occurs more often |
| RootStatsScreen.BarChart | StatsScreen.tsx:67-70 | labels and values have one slot per statistic, position by position its emotion and count |
| RootStatsScreen.RootStatsScreenState.constructor | StatsScreen.tsx:27-29 | no statistics, not loading, no toast |
| RootStatsScreen.RootStatsScreenState.FetchStats | StatsScreen.tsx:31-53 | a failed query shows the error toast and keeps the statistics; rows replace them with the sorted tally; a missing list throws in the reduce, so the statistics stay and loading stays on |
| FaceAnalysis.TranslateLabel | endpointhf.tsx:7-16 | the label is always one of the eight translations: the key's own one when the table has it, 'Неизвестно' otherwise (also lines 77-78) |
| FaceAnalysis.ErrorLabel | endpointhf.tsx:90-95 | a thrown error whose message mentions 'API' reads 'Ошибка сервера', anything else 'Не удалось распознать'; neither is ever one of the recognised emotion labels, so a failure cannot pass for an analysis |
| FaceAnalysis.OutcomeOf | endpointhf.tsx:62-73 | the answer is used exactly when the status is OK and the body is an array whose first element has a label; a bad status throws the API error with the body, a bad shape the format error |
| FaceAnalysis.SuccessLabel | endpointhf.tsx:76-78 | the label of a valid answer is always one of the eight translations |
| FaceAnalysis.AnalyzeFaceSuccess | endpointhf.tsx:76-84 | a valid answer yields the translation of its normalised label with the model's score |
| FaceAnalysis.LabelNormalised | endpointhf.tsx:76-78 | blanks around the label are ignored and its case is folded before the lookup |
| FaceAnalysis.LabelCaseIgnored | endpointhf.tsx:76 | an upper-case and a lower-case label get the same translation |
| FaceAnalysis.AnalyzeFaceFailed | endpointhf.tsx:86-95 | every failure yields confidence 0 and one of the two error labels |
| FaceAnalysis.NotOkIsServerError | endpointhf.tsx:64-66 | an answer that is not OK always reads as a server error, whatever its body (also lines 91-92) |
| FaceAnalysis.BadShapeIsUnrecognised | endpointhf.tsx:71-73 | an OK answer of the wrong shape reads 'Не удалось распознать' (also lines 91-93) |
| FaceAnalysis.LabelStartsCyrillic | endpointhf.tsx:76-95 | every label the analysis returns starts with a capital Cyrillic letter (А–Я or Ё), and so with a character of the Cyrillic block U+0400–U+04FF |
| FaceAnalysis.TranslationsStartCyrillic | endpointhf.tsx:7-16 | every translation in the table starts with a capital Cyrillic letter (А–Я or Ё), and so with a character of the Cyrillic block U+0400–U+04FF |
| FaceAnalysis.Labels | screens/HomeScreen.tsx:75 | the labels stored for a week of analyses, one per analysis, in order (also lines 86-89) |
| FaceAnalysis.StoredLabelsIndexFifty | endpointhf.tsx:76-84 | whatever the model answers, a non-empty week of stored labels gets happiness index 50 on the statistics screen |
| WeeklyReport.PairTexts | endpoinbx.tsx:28 | one `emotion: count` text per tally entry, in order |
| WeeklyReport.Prompt | endpoinbx.tsx:27-29 | the prompt always begins with the report request, and is only that for an empty week |
| WeeklyReport.ContainsAfter | endpoinbx.tsx:27 | text found in a suffix is found in the whole |
| WeeklyReport.JoinContainsPart | endpoinbx.tsx:29 | every part survives the join |
| WeeklyReport.PromptCountsEveryEmotion | endpoinbx.tsx:22-29 | every emotion of the week appears in the prompt with the number of times it occurs, and the counts add up to the number of rows |
| WeeklyReport.ReportOf | endpoinbx.tsx:48-50 | a report exists exactly when the answer has data with a non-empty message list, and it is the first message's content |
| WeeklyReport.Summarize | endpoinbx.tsx:12-63 | a failed query rethrows its error with no call made; a missing list throws in the reduce; otherwise the prompt over the tally is posted first; a result is returned only when the insert succeeded |
| WeeklyReport.ReportStoredIffValid | endpoinbx.tsx:48-56 | an invalid answer throws 'Invalid response from the AI service' after the post alone; a valid one is inserted for the user as the second call |
| WeeklyReport.ReturnsIffAllSucceed | endpoinbx.tsx:12-63 | the function returns exactly when the query, the post, the answer check and the insert all succeed; a failed post or insert is rethrown as is |
| WeeklyReport.SummarizeEmotions | endpoinbx.tsx:12-63 | the step-by-step run makes the calls and ends with the outcome of the reference definition |
| ChatScreen.EmotionLines | screens/AssistantChatScreen.tsx:213 | one formatted line per emotion, in order |
| ChatScreen.Recent | screens/AssistantChatScreen.tsx:212 | the first five emotions, or all of them when there are fewer |
| ChatScreen.ContextShape | screens/AssistantChatScreen.tsx:211-218 | without emotions the message is the input alone; otherwise it is the header, the lines of the latest five emotions, the message header and the input |
| ChatScreen.ContextUsesLatestFive | screens/AssistantChatScreen.tsx:211-218 | emotions past the fifth do not change what the assistant is sent |
| ChatScreen.WalkShowsPrefix | screens/AssistantChatScreen.tsx:63-133 | after the first load and k load-mores, each made while more existed, the list is exactly the first 20(k+1) messages in order, and more are offered exactly while messages remain |
| ChatScreen.Walk | screens/AssistantChatScreen.tsx:63-133 | after the initial load and k load-mores the page counter is k+1, more are offered exactly while over 20(k+1) messages are stored, and at most 20(k+1) are shown |
| ChatScreen.Rendered | screens/AssistantChatScreen.tsx:109-135 | a handler built after a render carries the current page and more-flag; while both are unchanged the previous handler, with the loading flag it captured, is kept |
| ChatScreen.Shown | screens/AssistantChatScreen.tsx:205-208 | only messages whose save returned a record are shown, the user's first and the assistant's last (also lines 236-238) |
| ChatScreen.SendEffects | screens/AssistantChatScreen.tsx:205-245 | the user's message is saved, then the context is sent; a reply is saved as the assistant's, a failure shows the send error instead |
| ChatScreen.ChatScreenState.constructor | screens/AssistantChatScreen.tsx:47-53 | no messages, empty input, history loading, page 1, more expected; the load-more handler is built with history loading |
| ChatScreen.ChatScreenState.LoadInitialData | screens/AssistantChatScreen.tsx:63-106 | without a user nothing changes; a failed lookup shows the load error; otherwise the emotions are set, more is expected exactly when over 20 messages exist, and the first page or the welcome message is shown; history loading ends false; the memoised load-more handler is rebuilt only if the page or more-flag changed, so it stays stuck while more are expected |
| ChatScreen.ChatScreenState.LoadMoreMessages | screens/AssistantChatScreen.tsx:109-133 | nothing happens when no more exist or a load is running; a thrown lookup adds only the load-more error toast, a lookup without a user changes neither paging nor effects; otherwise the next range is asked for, its messages appended, the page advanced and more expected exactly while the count exceeds the messages asked for; this is the handler as intended, re-created with the current loading flag; the memoised handler is left alone (see Findings) |
| ChatScreen.ChatScreenState.LoadMoreMessagesAsWritten | screens/AssistantChatScreen.tsx:109-135 | the memoised handler: its guard reads the more-flag and loading flag it captured; past the guard it fetches the range from the captured page and advances the page counter and rebuilds the handler; a thrown lookup adds only the load-more error toast and a lookup without a user changes neither paging nor effects; a handler stuck (built with the current page and flag, and with no more or loading) stays stuck |
| ChatScreen.ChatScreenState.ClearHistory | screens/AssistantChatScreen.tsx:136-171 | for a user the chats are deleted and only the welcome message remains, page 1, no more; a failed lookup shows the clear error; the memoised load-more handler is rebuilt only if the page or more-flag changed |
| ChatScreen.ChatScreenState.HandleSend | screens/AssistantChatScreen.tsx:193-251 | blank input or a running send changes nothing; otherwise saved messages are shown, the contextual message is sent, and the input ends empty and loading false |
| ChatScreen.ChatScreenState.Send | screens/AssistantChatScreen.tsx:196-250 | the send past its guard: saved messages shown, calls made, input cleared |
| ChatScreen.InitialLoadThenLoadMoreAsWritten | screens/AssistantChatScreen.tsx:109-135 | on a fresh screen, the initial load followed by reaching the end of the list fetches nothing, whatever is stored |
| ChatScreen.InitialLoadThenLoadMore | screens/AssistantChatScreen.tsx:109-133 | the same steps with the intended handler fetch messages 20-39 exactly when more than 20 are stored |
| HomeScreen.Without | screens/HomeScreen.tsx:94 | the photo is gone from the list, every other photo is kept as often as it was, and the list does not grow (also line 123) |
| HomeScreen.WithoutConcat | screens/HomeScreen.tsx:94 | the filter keeps the order of the photos it keeps (also line 123) |
| HomeScreen.WithoutAbsent | screens/HomeScreen.tsx:94 | a list without the photo is left unchanged (also line 123) |
| HomeScreen.WithoutIdempotent | screens/HomeScreen.tsx:94 | deleting a photo twice is deleting it once (also line 123) |
| HomeScreen.Rejection | screens/HomeScreen.tsx:72-83 | the photo goes on to the insert exactly when a user is signed in and the confidence is neither 0 nor below 0.5; otherwise the sign-in text, the analysis label or the low-confidence text, in that order of checks |
| HomeScreen.HomeScreenState.constructor | screens/HomeScreen.tsx:15-17 | no photos, not loading |
| HomeScreen.HomeScreenState.OpenCamera | screens/HomeScreen.tsx:29-52 | with five photos the cap toast is shown; a refused permission shows its toast; otherwise a returned photo is appended; at most five photos are ever held |
| HomeScreen.HomeScreenState.OpenGallery | screens/HomeScreen.tsx:54-67 | the same cap, without the permission step |
| HomeScreen.HomeScreenState.Delete | screens/HomeScreen.tsx:115-128 | the confirmed delete removes every copy of the photo and nothing else |
| HomeScreen.HomeScreenState.SendPhoto | screens/HomeScreen.tsx:69-102 | a rejected analysis shows its text and keeps the photos; otherwise the label is inserted for the user, and the photo leaves the list only when the insert succeeded; loading ends false |
| HomeScreen.HomeScreenState.Store | screens/HomeScreen.tsx:73-96 | the checks after the analysis: a rejection only toasts, an accepted analysis is inserted, and the photo leaves the list only after a successful insert |
| HomeScreen.StoredEmotionIsTranslation | screens/HomeScreen.tsx:75-90 | only a valid answer of the model gets past the checks, so the stored emotion is always one of the eight translations and never an error label |
| HistoryScreen.EmotionIconInTable | screens/HistoryScreen.tsx:16-25 | every row gets one of the table's icons, and a row without an emotion gets the confused icon (also lines 70-72) |
| HistoryScreen.IconsDistinct | screens/HistoryScreen.tsx:16-25 | the eight labels and the eight icons are pairwise different |
| HistoryScreen.TranslationsHaveIcons | screens/HistoryScreen.tsx:16-25 | each label the face analysis can store has its own icon, and only 'Неизвестно' shows the confused icon |
| HistoryScreen.Offset | screens/HistoryScreen.tsx:37-38 | a reset asks from offset 0, and every offset is a whole number of pages |
| HistoryScreen.NextPage | screens/HistoryScreen.tsx:54 | the next page's offset is exactly one page past the offset just fetched |
| HistoryScreen.NextPageAsWritten | screens/HistoryScreen.tsx:54 | as written, after a reset the next load-more asks for the offset just fetched again; otherwise one page further |
| HistoryScreen.WalkShowsPrefix | screens/HistoryScreen.tsx:35-68 | with the intended page counter, after a refresh and k load-mores the list is exactly the first 10(k+1) rows, each once and in order, and more are offered exactly while rows remain |
| HistoryScreen.Walk | screens/HistoryScreen.tsx:35-68 | after a refresh and k load-mores with the intended counter the page counter is k+1 and at most 10(k+1) rows are listed |
| HistoryScreen.WalkAsWritten | screens/HistoryScreen.tsx:54 | with the counter as written it lags one behind: it is k after k load-mores |
| HistoryScreen.FirstPageTwiceAsWritten | screens/HistoryScreen.tsx:54 | with the page counter as written, a refresh followed by one load-more lists the first ten rows twice |
| HistoryScreen.HistoryScreenState.constructor | screens/HistoryScreen.tsx:29-33 | empty list, page 0, more expected, loading |
| HistoryScreen.HistoryScreenState.FetchHistory | screens/HistoryScreen.tsx:35-61 | without a user nothing is asked and nothing changes; the range asked for is ten rows from the offset; a failed query changes nothing; a successful one updates list, page and more; loading and refreshing end false |
| HistoryScreen.HistoryScreenState.Refresh | screens/HistoryScreen.tsx:63-66 | a refresh replaces the list with the first page; with a user exactly one query for rows 0-9 is made, without one none; loading and refreshing end false |
| HistoryScreen.HistoryScreenState.EndReached | screens/HistoryScreen.tsx:194 | nothing happens when no more rows exist; otherwise the fetch of the next page runs: one query for the range after the current page (none without a user), the rows appended with more expected exactly while the count exceeds them, the view kept on a failed query, and loading and refreshing end false |
| AppContent.Stack | App.tsx:153-178 | while loading only the spinner is shown; afterwards three screens, the main tabs exactly when there is a session and the sign-in stack exactly when there is none, then Camera and Terms |
| AppContent.StartUpStack | App.tsx:101-178 | after start-up the main tabs are shown exactly when the fetch returned a session; a thrown fetch leaves the sign-in stack |
| AppContent.FragmentOf | App.tsx:131 | the text between the first and second '#', with no '#' in it; none when the address has no '#' |
| AppContent.NoHashNoFragment | App.tsx:131 | an address without '#' has no fragment |
| AppContent.FragmentBetweenHashes | App.tsx:131 | the fragment after the base is recovered, whatever follows a second '#' |
| AppContent.PairOf | App.tsx:131 | a parameter splits at its first '=' into a name without '=' and the rest; one without '=' has an empty value |
| AppContent.PairOfNameValue | App.tsx:131 | a name without '=' and any value are read back from `name=value` |
| AppContent.PairsOf | App.tsx:131 | every parameter read has a name without '=', and none is invented |
| AppContent.Params | App.tsx:131 | no fragment gives no parameters |
| AppContent.DeepLinkCall | App.tsx:126-142 | only a callback address can set the session; the two tokens it passes are non-empty and are the values of `access_token` and `refresh_token` in the fragment |
| AppContent.DeepLinkCallIff | App.tsx:131-140 | the session is set with a pair of tokens exactly when the address is a callback, both tokens are non-empty and each is the value of the first fragment pair with its name |
| AppContent.NoHashNoCall | App.tsx:126-142 | an address without a fragment never sets the session |
| AppContent.SplitTwo | App.tsx:131 | two parameters without '&' come out of the split first, in order |
| AppContent.PieceNoAmpersand | App.tsx:131 | a parameter built from text without '&' contains no '&' |
| AppContent.PairsOfTwo | App.tsx:131 | two non-empty parameters are read first, in order |
| AppContent.TokenPieces | App.tsx:131 | the token fragment's parameters are the two token parameters followed by the rest |
| AppContent.TokenPairs | App.tsx:131-133 | the token fragment reads as the access and refresh tokens, then the rest |
| AppContent.TokensRead | App.tsx:131-133 | looking up the two names in the token fragment gives back the two tokens |
| AppContent.CallbackRoundTrip | App.tsx:126-142 | a callback address whose fragment starts with the two tokens sets exactly that session, whatever other parameters and second fragment follow |
| AppContent.PrefixContains | App.tsx:128-129 | a callback path in the base stays in the whole address |
| AppContent.AppContentState.constructor | App.tsx:102-103 | no session and loading, so only the spinner shows |
| AppContent.AppContentState.Mount | App.tsx:119 | the auth listener and the link listener are registered (also line 144) |
| AppContent.AppContentState.InitializeAuth | App.tsx:107-117 | the session is the fetched one, or kept when the fetch threw; auto-refresh starts only after a successful fetch; loading ends false either way |
| AppContent.AppContentState.OnAuthStateChange | App.tsx:119-124 | while subscribed, every event sets the session it carries, and a sign-out also dismisses the browser |
| AppContent.AppContentState.HandleDeepLink | App.tsx:126-142 | while listening, a link asks to set the session exactly when it yields two tokens; nothing else changes |
| AppContent.AppContentState.Teardown | App.tsx:147-150 | both listeners are removed |
| ThemeContext.StoredValue | context/ThemeContext.tsx:39 | the stored value is 'dark' or 'light' |
| ThemeContext.StoredValueRoundTrip | context/ThemeContext.tsx:23 | reading back what a toggle wrote gives the same flag (also line 39) |
| ThemeContext.Saved | context/ThemeContext.tsx:39 | the write sets the theme key to the flag's value and keeps every other key |
| ThemeContext.LoadAfterSave | context/ThemeContext.tsx:20-43 | a load after a saved toggle yields the toggled flag; a storage never written loads light |
| ThemeContext.ThemeProvider.constructor | context/ThemeContext.tsx:15-16 | light and not ready, so nothing is rendered (also lines 46-48) |
| ThemeContext.ThemeProvider.LoadTheme | context/ThemeContext.tsx:19-32 | a successful read sets the flag from storage, a failed one keeps it; ready and rendering either way; storage untouched |
| ThemeContext.ThemeProvider.ToggleTheme | context/ThemeContext.tsx:34-43 | the flag flips; the new value is stored unless the write fails, and a failed write does not undo the flip |
| ProfileScreen.NamesFromFullName | screens/ProfileScreen.tsx:112-113 | without first and last names, a full name of two words gives them |
| ProfileScreen.NamesWithoutMetadata | screens/ProfileScreen.tsx:112-113 | with no name metadata both fields are empty |
| ProfileScreen.UpdateAttributes | screens/ProfileScreen.tsx:169-176 | the email is sent exactly when it differs from the user's current one (or there is no user) |
| ProfileScreen.UpdateAttributesData | screens/ProfileScreen.tsx:169-174 | the metadata sent keeps every other field of the user's metadata, adds nothing else, and sets first and last name to the trimmed inputs |
| ProfileScreen.UpdateErrorPassThrough | screens/ProfileScreen.tsx:185-192 | an `Error` message reaches the toast unchanged exactly when it is neither 'duplicate key' nor 'Email rate limit exceeded'; the failure text equals the success text only for an error carrying that very text |
| ProfileScreen.DeleteEffects | screens/ProfileScreen.tsx:208-234 | without a user only the not-signed-in toast; a failed lookup only toasts its message; with a user the deletion is asked first; a failed deletion adds only 'Ошибка удаления: ' and the error's message (or 'Неизвестная ошибка'); sign-out and navigation to Auth happen exactly when the deletion succeeded, and then the last toast is 'Аккаунт удален' |
| ProfileScreen.DeleteOrder | screens/ProfileScreen.tsx:218-224 | the deletion is asked at most once, sign-out follows it directly and navigation follows sign-out directly |
| ProfileScreen.ProfileState.constructor | screens/ProfileScreen.tsx:53-57 | no user, empty fields, not loading |
| ProfileScreen.ProfileState.LoadUser | screens/ProfileScreen.tsx:96-120 | a loaded user replaces the form: the pending new e-mail before the current one, `first_name`/`last_name` before the first and second space-separated words of `name`; an error or a missing user keeps the form and shows exactly one toast (the error's message, 'Ошибка загрузки профиля' or 'User not found'); a loaded user shows none; loading ends false |
| ProfileScreen.ProfileState.OnAuthStateChange | screens/ProfileScreen.tsx:86-90 | only a user update or the initial session reloads the user, with the form and toasts of the load; any other event changes nothing |
| ProfileScreen.ProfileState.OnDeepLink | screens/ProfileScreen.tsx:71-79 | only an email-confirmation link refreshes the session and then reloads the user, with the form and toasts of the load; any other link changes nothing, form, loading flag and effects included |
| ProfileScreen.ProfileState.HandleUpdateProfile | screens/ProfileScreen.tsx:160-196 | an invalid email shows its toast and sends nothing; otherwise the attributes are sent and the success or translated error toast follows; the form is not changed |
| ProfileScreen.ProfileState.ConfirmDeleteAccount | screens/ProfileScreen.tsx:199-238 | the confirmed deletion makes exactly the calls and toasts of `DeleteEffects`; loading ends false |
| Strings.ContainsMiddle | App.tsx:128-129 | text is found wherever it is embedded |
| Strings.FirstCharAbsent | App.tsx:128-129 | text whose first character is absent cannot be found |
| Strings.TrimStart | endpointhf.tsx:76 | removes exactly the leading white space |
| Strings.TrimEnd | endpointhf.tsx:76 | removes exactly the trailing white space |
| Strings.TrimNoSpace | endpointhf.tsx:76 | text without white space at either end is unchanged by trimming |
| Strings.TrimIsMiddle | endpointhf.tsx:76 | the trimmed text is a middle slice with only white space around it |
| Strings.TrimPadded | endpointhf.tsx:76 | trimming white space padding around a word gives the word back |
| Strings.ToLower | endpointhf.tsx:76 | lower-casing works character by character and keeps the length |
| Strings.ToLowerIdempotent | screens/StatsScreen.tsx:90 | lower-casing twice is lower-casing once |
| Strings.TrimToLowerCommute | endpointhf.tsx:76 | trimming and lower-casing may be done in either order |
| Strings.NatToString | endpoinbx.tsx:28 | a count prints as at least one decimal digit |
| Strings.DecimalOfNatToString | endpoinbx.tsx:28 | reading the printed count back gives the count |
| Strings.IndexOf | App.tsx:131 | the position of the first occurrence of the character, or the length when there is none |
| Strings.Split | App.tsx:131 | at least one piece, and no piece holds the separator |
| Strings.JoinSplit | App.tsx:131 | joining the pieces with the separator gives the text back |
| Strings.SplitNoSeparator | App.tsx:131 | text without the separator is one piece |
| Strings.SplitAtFirst | App.tsx:131 | the first piece ends at the first separator |
| Wrappers.Min | screens/HistoryScreen.tsx:48 | the smaller of the two |
| Wrappers.Window | screens/HistoryScreen.tsx:48 | the rows a range query returns: never more than `size`; exactly `size` when the table reaches that far; row k is table row `from + k`; a short page ends at the end of the table |
| Wrappers.Lookup | App.tsx:132-133 | the value of the first entry with the key, missing exactly when no entry has it |
| Wrappers.LookupFinds | App.tsx:132-133 | the first entry with a key is the one found |
| Wrappers.LookupIsFirst | App.tsx:132-133 | a key is found with a value exactly when some entry carries that pair and no earlier entry has the key |

## Left out

- Backend, network and device calls: Supabase queries and auth calls, the chat and report APIs, the face-model request and reading the photo file. Their answers are parameters; the success toasts' timers and auto-hide are not modelled.
- Dates and clocks: the seven-day window, ISO timestamps and `dayjs` formatting. The chat's date format is a function parameter; the welcome message's timestamp is a parameter.
- Floating point: the confidence is an exact `real` and the percentage text of the success toast is not modelled. The happiness index uses exact tenths for the weights and rounds half up, with no IEEE rounding.
- FaceAnalysis.AnalyzeFaceSuccess: the confidence is the model's score itself, not `Number(score.toFixed(2))` (endpointhf.tsx:83). A score in [0.495, 0.5) becomes 0.5 in the app but stays below 0.5 here; a score in (0, 0.005) becomes 0 in the app but stays positive here.
- HomeScreen.Rejection: because of that rounding, the app stores a photo whose score lies in [0.495, 0.5) while the model rejects it as low confidence, and for a score in (0, 0.005) the app takes the confidence-0 path (the label alone as the error) while the model takes the low-confidence path ('Низкая уверенность: ' and the label).
- The random chart colours of StatsScreen.tsx and every other piece of styling, animation and layout.
- String semantics: a string is a sequence of Unicode scalar values (`char`), while JavaScript counts and slices UTF-16 code units, so a character outside the Basic Multilingual Plane (an emoji, say) is one character here and two in the app. `toLowerCase` is modelled for ASCII, Latin-1 and Cyrillic capitals only; other scripts are left unchanged.
- PasswordStrength.Score: the thresholds of 8 and 12 characters count code points, so a password with characters outside the Basic Multilingual Plane can reach them later here than in the app.
- ChangePassword.Validate: the 8-character minimum counts code points, not UTF-16 units (same consequence).
- PasswordReset.Validate: the 8-character minimum counts code points, not UTF-16 units (same consequence).
- RootProfileScreen.LastChar: `value.slice(-1)` keeps the last UTF-16 unit, half of a surrogate pair for an emoji; the model keeps the whole last character. The six-digit code itself is compared as text, which is unaffected.
- StatsScreen.ParseIntHex: the value is an exact integer, while `parseInt` returns a double; above 2^53 (more than 13 hexadecimal digits) the app's value is rounded.
- RootStatsScreen.ParseRGB: each run of digits is read as an exact integer, while `parseInt(run, 10)` returns a double; runs whose value exceeds 2^53 are rounded in the app. The runs of a colour's own `rgb(r, g, b)` text are bytes and exact in both.
- StatsScreen.ParseRGB: with that rounding the app's channels of a colour with more than 13 hexadecimal digits can differ: for '#FFFFFFFFFFFFFF' the app rounds to 2^56 and gets 0, 0, 0, the model 255, 255, 255. Six-digit colours, the only ones the chart produces, are exact in both.
- URL decoding: `URLSearchParams` percent-decoding and '+' as space are not modelled. A fragment is read as '&'-separated `name=value` pairs, with the first pair of a name winning.
- Object key order: `Object.entries` lists integer-like keys first in ascending order. The tallies keep plain insertion order, which agrees for emotion names.
- Inherited object keys: every table lookup and every counting reduce treats a plain object as a dictionary of its own keys only. In the app a label or emotion such as 'constructor' or '__proto__' reaches `Object.prototype` members: the translation tables (endpointhf.tsx:77, screens/HistoryScreen.tsx:71, screens/StatsScreen.tsx:97, screens/ProfileScreen.tsx:191) return an object instead of the fallback, a '__proto__' row vanishes from a tally and a 'constructor' count becomes a string (StatsScreen.tsx:45, screens/StatsScreen.tsx:91, endpoinbx.tsx:23). FaceAnalysis.TranslateLabel, FaceAnalysis.SuccessLabel, FaceAnalysis.StoredLabelsIndexFifty, HomeScreen.StoredEmotionIsTranslation and Tally.TallyCounts hold for every other key.
- Interleaving of asynchronous handlers: each handler is one atomic step. Two picker calls racing past the photo cap, and stale closures other than the chat's load-more handler, are not modelled.
- Confirmation dialogs: only the confirming choice is modelled (delete photo, clear statistics, clear chat, delete account); cancelling changes nothing.
- The OTP input's focus moves and the countdown's interval timer in ProfileScreen.tsx: only the countdown step and the code change are modelled.
- `fetchUser` and `handleUpdateProfile` of ProfileScreen.tsx: copying the backend user into the form and sending it back. The model's root profile state holds no e-mail or name fields.
- PasswordReset.PasswordResetScreen.HandleReset: the sign-out is taken to return. A sign-out that throws after a successful update would skip the replace to 'Auth' and add the error toast; that path is not modelled.
- The session is an abstract pair of tokens; its other fields and the auto-refresh itself are not modelled.
- Theme rendering: which colours `isDark` selects is not modelled; only the flag, readiness and the stored value are.
- HistoryScreen.HistoryScreenState.FetchHistory: it uses the corrected page counter, not the one written at screens/HistoryScreen.tsx:54 (see Findings); the written counter is modelled by `HistoryScreen.WalkAsWritten`.
- HistoryScreen.HistoryScreenState.Refresh: it leaves the page counter at 1, the corrected value, where screens/HistoryScreen.tsx:54 sets 0 (see Findings).
- ChatScreen.ChatScreenState.LoadMoreMessages: it models the handler as intended, reading the current loading flag; the memoised handler of screens/AssistantChatScreen.tsx:109-135 is modelled by `ChatScreen.ChatScreenState.LoadMoreMessagesAsWritten` (see Findings). A clear of the history racing the initial load is not modelled.
- CameraScreen.tsx, the terms screens, the toast and gradient elements, the Supabase client files, the style and type files, and the thin root variants of the auth, home, history and theme modules: these are presentation or configuration, or have less logic than the modelled screens.

## Findings

| source | as written | input that shows it | evidently intended | confidence | as-written member | corrected member |
|---|---|---|---|---|---|---|
| screens/HistoryScreen.tsx:54 | after a reset the page counter is set to 0, although page 0 was just fetched | a table of more than 10 rows, a refresh, then one load-more: the second query again asks for rows 0-9, so the first ten rows are listed twice | after a reset the counter points at page 1, so each load-more continues where the list ends | high (not executed) | HistoryScreen.FirstPageTwiceAsWritten | HistoryScreen.WalkShowsPrefix |
| screens/AssistantChatScreen.tsx:135 | `loadMoreMessages` is memoised on `[page, hasMore]` only, so it keeps the `isHistoryLoading` of the render that built it; that flag starts true, and the initial load leaves page and more-flag unchanged when more than 20 messages exist | a conversation of more than 20 stored messages, the screen opened, then the end of the list reached: the handler still sees 'loading' and returns, so the older messages never load | `isHistoryLoading` among the dependencies (or read through a ref), so reaching the end fetches messages 20-39 | high (not executed) | ChatScreen.InitialLoadThenLoadMoreAsWritten | ChatScreen.InitialLoadThenLoadMore |
