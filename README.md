# Sleep and school-day bots, modelled in Dafny

This project models the logic of two small Go bots that post to Slack.

The first bot, `fitbit`, works as follows:
- It builds an OAuth PKCE verifier and challenge (RFC 7636).
- It refreshes its Fitbit tokens with a Basic-authenticated refresh grant (RFC 6749).
- Every morning from 05:00 it polls the provider for last night's sleep.
- It posts one summary per date: a text with the start, end and total hours, then a ten-cell bar against the sleep goal.

The second bot, `skolengo`, fetches the timetable once per day. For every day with lessons it plans three timed messages:
- a minute before the first lesson;
- two seconds after the first lesson starts, with the hours of school and an emoji for the number of lessons;
- a minute after the last lesson.

It drops messages whose time has already passed. It sleeps until the next midnight, and panics after reporting a failed fetch.

The modules are:
- `Wrappers`: `Option` and `Result`.
- `Utf8`: Go's `[]byte(s)`.
- `Base64`: the padded and unpadded encodings of RFC 4648, section 4 (standard alphabet) and section 5 (URL-safe alphabet), with their decoders. The decoders are canonical in the sense of section 3.5 of RFC 4648: a final group whose unused bits are not zero is rejected. So a text decodes to a byte string exactly when it is that byte string's encoding.
- `Pkce`: `fitbit/oauth.go`.
- `SleepTime`: the provider's timestamp layout, the date key, and the wait until 05:00.
- `SleepSummary`: the aggregation loop and the sleep bar.
- `FitbitApi`: `fitbit/fitbit.go`, with `FitbitClient` as a class whose token fields `RefreshToken` updates in place.
- `DayLoop`: `runBot`'s nested loops, over a trace of clock readings and fetch outcomes.
- `SchoolDay`: `skolengo/main.go`.

Clocks, the random source, SHA-256, HTTP replies, Slack deliveries and file writes are inputs. Each becomes a parameter or a trace element.

Where the code and its evident design differ, the model follows the code:
- A verifier of length `L` with `L % 4 == 1` is `L - 1` characters long, not `L`.
- A fetch error marks the date as sent.
- Both sends advance the marker whatever their outcome.
- Polling continues through hour 22; the cutoff is `hour > 22`.
- The shown start and end come from the first entry, not from the computed minimum and maximum.
- Each pass reads the date and the hour from separate clock readings.

As written in the repository, the `fitbit` package does not type-check: `ExpiresIn` is an `int` in the token response and an `int64` in the client. The model copies it as a plain integer.

## Model

| member | source | states |
|---|---|---|
| Utf8.Encode | fitbit/fitbit.go:106-107 | `[]byte(s)` is at least as long as the string, and byte for byte the string when it is ASCII |
| Utf8.CharRoundTrip | fitbit/fitbit.go:106-107 | the first byte of an encoded character announces its length, and the bytes give the character back |
| Utf8.EncodeInjective | fitbit/fitbit.go:106-107 | two strings with the same `[]byte` conversion are equal, for any text and not only ASCII |
| Base64.Value | fitbit/oauth.go:22 | every alphabet character has a 6-bit value and is the symbol of that value, so symbols are injective |
| Base64.Encode | fitbit/oauth.go:22 | the output length is `4*(n/3)` plus 0, 2 or 3 characters unpadded, or a multiple of 4 padded; every character is in the alphabet or is `=` when padded |
| Base64.RawUrlEncode | fitbit/oauth.go:22 | unpadded base64url of `n` bytes has `4*(n/3) + [0,2,3][n%3]` characters, all in `[A-Za-z0-9-_]` |
| Base64.StdEncode | fitbit/fitbit.go:107 | padded standard base64 has `4*ceil(n/3)` characters, all in the alphabet or `=` |
| Base64.GroupRoundTrip | fitbit/oauth.go:22 | decoding the four symbols of a 3-byte group gives the three bytes back |
| Base64.TailRoundTrip | fitbit/oauth.go:22 | the 2- and 3-character tails of an unpadded encoding decode to their 1 or 2 bytes |
| Base64.PaddedTail | fitbit/fitbit.go:107 | a padded final group (`xx==`, `xxx=`) decodes to its 1 or 2 bytes |
| Base64.RoundTrip | fitbit/oauth.go:22 | for both alphabets, padded or not, decoding an encoding gives back exactly the input bytes |
| Base64.EncodeInjective | fitbit/oauth.go:31 | two byte strings with the same encoding are equal |
| Base64.TailOfDecode | fitbit/oauth.go:22 | a final group that decodes (its unused low bits zero) is exactly the encoding of its 1 or 2 bytes |
| Base64.DecodeCanonical | fitbit/oauth.go:22 | a text that decodes is exactly the encoding of the bytes it decodes to: decoding accepts no variant spellings |
| Base64.DecodeIsInverse | fitbit/oauth.go:22 | a text decodes to `b` if and only if it is the encoding of `b` |
| Pkce.GenerateCodeVerifier | fitbit/oauth.go:10-27 | fails with the length error exactly when the length is outside [43, 128]; fails with the random-source error exactly when fewer than `3*length/4` bytes are available; otherwise returns at most `length` characters, all unreserved in the sense of RFC 7636 |
| Pkce.VerifierIsEncodedEntropy | fitbit/oauth.go:15-26 | for a valid length the verifier is exactly the unpadded base64url encoding of the first `floor(3*length/4)` random bytes, so the cut to `length` never applies |
| Pkce.VerifierLengthArithmetic | fitbit/oauth.go:15 | the encoding of `floor(3L/4)` bytes is `L` characters long, or `L - 1` when `L % 4 == 1` |
| Pkce.VerifierLength | fitbit/oauth.go:15-25 | a valid length yields a verifier of `L - 1` characters when `L % 4 == 1` and `L` otherwise, in particular exactly 43 and 128 at the two bounds |
| Pkce.VerifierBounds | fitbit/oauth.go:11-13 | 42 and 129 are rejected; 43 and 128 give verifiers of exactly that length |
| Pkce.GenerateCodeChallenge | fitbit/oauth.go:29-32 | the challenge is 43 base64url characters and decodes to the SHA-256 digest of the verifier's bytes |
| Pkce.ChallengeIsTheEncoding | fitbit/oauth.go:29-32 | the challenge is the one and only text that decodes to the verifier's digest, so its decoding fixes it character for character |
| Pkce.ChallengeDeterminesDigest | fitbit/oauth.go:29-32 | equal challenges come from equal digests |
| SleepTime.NumberPadded | fitbit/main.go:211 | a zero-padded decimal field reads back as the number it was written from |
| SleepTime.ParseFitbitTime | fitbit/main.go:244-246 | the layout `2006-01-02T15:04:05.000` succeeds only on a calendar-valid timestamp |
| SleepTime.ClockRoundTrip | fitbit/main.go:244 | the time-of-day part the provider writes parses back into hour, minute, second and milliseconds |
| SleepTime.FormatParseRoundTrip | fitbit/main.go:244-246 | parsing what the provider writes gives back the same instant |
| SleepTime.DateKey | fitbit/main.go:211 | `Format("2006-01-02")` is ten characters with `-` at positions 4 and 7 |
| SleepTime.DateKeyParts | fitbit/main.go:211 | the year, month and day read back from the date key |
| SleepTime.DateKeyInjective | fitbit/main.go:211 | two instants with the same date key fall on the same calendar day |
| SleepTime.MillisOfDay | fitbit/main.go:196-197 | the local time of day lies in [0, 24 h) |
| SleepTime.WaitUntilFive | fitbit/main.go:196-201 | the wait lies in [0, 24 h); it is 0 exactly at 05:00:00, since `After` is strict; it ends at today's 05:00, or at tomorrow's when now is past 05:00 |
| SleepTime.WaitEndsAtNextFive | fitbit/main.go:197-201 | the wait ends at a 05:00 and no earlier instant of it is 05:00, so it reaches the next 05:00 |
| SleepSummary.LexLessTotal | fitbit/main.go:236-239 | Go's string `<` is a total order |
| SleepSummary.LexLessTransitive | fitbit/main.go:236-239 | Go's string `<` is transitive |
| SleepSummary.LexLessAsymmetric | fitbit/main.go:236-239 | Go's string `<` is asymmetric |
| SleepSummary.EntryWithinTotal | fitbit/main.go:234-235 | no entry lasts longer than the total |
| SleepSummary.EarliestStart | fitbit/main.go:232-238 | the start kept is one of the entries' starts and is `<=` every start |
| SleepSummary.LatestEnd | fitbit/main.go:233-241 | the end kept is one of the entries' ends and is `>=` every end |
| SleepSummary.Aggregate | fitbit/main.go:231-242 | the loop returns the sum of the durations, the least start and the greatest end |
| SleepSummary.TotalWithout | fitbit/main.go:234-235 | removing one entry takes exactly its duration off the total |
| SleepSummary.TotalOrderFree | fitbit/main.go:234-235 | two lists with the same entries, in any order, have the same total |
| SleepSummary.AggregateOrderFree | fitbit/main.go:231-242 | total, least start and greatest end do not depend on the order of the entries |
| SleepSummary.Repeat | fitbit/main.go:303 | `strings.Repeat(c, n)` is `n` copies of `c` |
| SleepSummary.SleepBar | fitbit/main.go:291-304 | the bar always has exactly 10 cells |
| SleepSummary.PercentNonNegative | fitbit/main.go:292-293 | a non-negative sleep time gives a non-negative percentage of the goal |
| SleepSummary.SleepBarCells | fitbit/main.go:291-304 | for non-negative sleep the bar is `min(10, floor(10*slept/goal))` full cells followed by empty ones |
| SleepSummary.SleepBarExamples | fitbit/main.go:291-304 | with the 8-hour goal: 8 h fills the bar, 4 h fills 5 of 10 cells, 12 h is capped at 10, 0 h is all empty |
| FitbitApi.SleepUrl | fitbit/fitbit.go:65 | the sleep URL is prefix, user id, `/sleep/date/`, date and `.json`, and its length is the sum of theirs |
| FitbitApi.SleepUrlInjective | fitbit/fitbit.go:65 | for dates of one length, the URL determines the user id and the date |
| FitbitApi.BearerAuthorization | fitbit/fitbit.go:70 | the header is `Bearer ` followed by the token itself |
| FitbitApi.SleepRequest | fitbit/fitbit.go:64-70 | a GET of the sleep URL with a body-less request and the single Bearer header |
| FitbitApi.SleepResult | fitbit/fitbit.go:73-93 | data is returned exactly when the status is 200 and the body decodes; a non-200 status is reported with its code |
| FitbitApi.RefreshBodyFields | fitbit/fitbit.go:99 | when neither value contains `&`, the body splits into `client_id=…`, `grant_type=refresh_token` and `refresh_token=…`, in that order |
| FitbitApi.BasicAuthorization | fitbit/fitbit.go:105-108 | the header is `Basic ` followed by padded standard base64 that decodes to the bytes of `client-id:secret` |
| FitbitApi.CredentialsAreTheEncoding | fitbit/fitbit.go:105-108 | the header is `Basic ` followed by the one and only text that decodes to the bytes of `client-id:secret` |
| FitbitApi.RefreshRequest | fitbit/fitbit.go:99-109 | a POST to the token URL with the refresh body, the Basic header and the form content type, in that order |
| FitbitApi.RefreshedTokens | fitbit/fitbit.go:119-126 | new tokens exist exactly when the status is 200 and the body decodes, and they are the decoded record |
| FitbitApi.RefreshError | fitbit/fitbit.go:112-143 | no error exactly when the tokens were decoded and persisted; a persisting failure is reported after a successful decode |
| FitbitApi.FitbitClient.FromTokens | fitbit/main.go:103-115 | a new client holds the decoded tokens, empty credentials and an 8-hour goal |
| FitbitApi.FitbitClient.GetSleep | fitbit/fitbit.go:64-95 | the request is the body-less GET of the sleep URL for the client's user id with its access token as Bearer; the result is the decoded data exactly on a 200 that decodes |
| FitbitApi.FitbitClient.RefreshToken | fitbit/fitbit.go:97-148 | the request is built from the old credentials and refresh token; on a 200 that decodes the five token fields become the response's, even when persisting then fails; otherwise all five are unchanged; the credentials and the goal are never touched |
| FitbitApi.NewFitbitClientFromJson | fitbit/main.go:103-115 | no client when the record does not decode; otherwise a fresh client with the record's tokens and `GoalHours` 8 |
| FitbitApi.FailedRefreshKeepsTokens | fitbit/fitbit.go:119-126 | an error other than the persisting one means no new tokens were taken |
| DayLoop.DayStartWait | fitbit/main.go:196-208 | test mode skips the wait until 05:00, and only test mode does |
| DayLoop.ShownTime | fitbit/main.go:246-256 | a field that parses is shown as its parsed instant; one that does not is replaced by the current time |
| DayLoop.SendSummary | fitbit/main.go:231-281 | the dispatch sends the text with the first entry's start and end, then the bar for the summed total, both attempted |
| DayLoop.Poll | fitbit/main.go:210-286 | one inner pass breaks exactly when the hour is past 22; its marker and effects extend the trace's run by one pass |
| DayLoop.PollDay | fitbit/main.go:210-287 | the inner loop runs passes until one breaks or the trace ends, and its result is the run up to that pass |
| DayLoop.RunBot | fitbit/main.go:193-288 | the nested loops produce the initial wait followed by the run of every pass, and end with that run's marker |
| DayLoop.DispatchDates | fitbit/main.go:263-279 | a dispatch sends exactly one text and one bar, both for today |
| DayLoop.StepSends | fitbit/main.go:216-281 | a pass with data for an unmarked date sends once and marks it; a failed fetch marks it and sends nothing; any other pass sends nothing and keeps the marker |
| DayLoop.RunFollowsMarker | fitbit/main.go:193-287 | the loop's marker and the dates it sends texts and bars for are those of the marker machine run on the passes' dates and fetch outcomes |
| DayLoop.AtMostOncePerDate | fitbit/main.go:230-281 | on a trace whose date never returns once left, no date gets two texts or two bars |
| DayLoop.FetchErrorClosesDate | fitbit/main.go:216-222 | a failed fetch marks its date, and neither a text nor a bar for that date is sent afterwards |
| DayLoop.StepIgnoresDelivery | fitbit/main.go:268-281 | whether a send was delivered changes neither the marker nor the sends attempted in a pass |
| DayLoop.DeliveryIgnored | fitbit/main.go:268-281 | two traces that differ only in delivery outcomes attempt the same sends and end with the same marker |
| DayLoop.PollingWindow | fitbit/main.go:210-216 | a pass fetches exactly when its hour is 22 or earlier, asking for today with the client's tokens; later it keeps the marker and waits for 05:00 |
| DayLoop.BackOff | fitbit/main.go:216-228 | a pass ends with the hourly sleep exactly when its fetch succeeded; an empty sleep list keeps the marker |
| SchoolDay.EmojiTen | skolengo/main.go:55-69 | the `:ten:` fallback is chosen exactly for counts outside 1..9 |
| SchoolDay.EmojiTable | skolengo/main.go:55-69 | counts 1 to 9 give the nine listed shortcodes, and 0, 10 and 11 give `:ten:` |
| SchoolDay.EmojiDistinct | skolengo/main.go:55-69 | lesson counts 1 to 10 give ten different shortcodes |
| SchoolDay.SumDurations | skolengo/main.go:71-74 | the loop returns the sum of `End - Start` over the lessons, in list order |
| SchoolDay.TotalAppend | skolengo/main.go:71-74 | the total of two lesson lists joined is the sum of their totals |
| SchoolDay.TotalWithinSpan | skolengo/main.go:71-74 | for ordered, non-overlapping lessons the total lies between 0 and last end minus first start |
| SchoolDay.TruncateToMinuteBounds | skolengo/main.go:83 | `Truncate(time.Minute)` yields a whole number of minutes, rounded toward zero and less than a minute away |
| SchoolDay.DecimalRoundTrip | skolengo/main.go:83 | the decimal digits written for a number read back as that number |
| SchoolDay.MinutesText | skolengo/main.go:83 | `Duration.String` of whole minutes is `0s` exactly for zero, starts with `-` exactly for negatives, and otherwise ends in `m0s` |
| SchoolDay.MinutesTextExample | skolengo/main.go:83 | six and a half hours read `6h30m0s` |
| SchoolDay.ClockText | skolengo/main.go:85 | `Format("15:04")` is two digits, `:`, two digits |
| SchoolDay.ClockTextReadsBack | skolengo/main.go:85 | the two fields read back as the hour of the day, below 24, and the minute of the hour, below 60 |
| SchoolDay.ClockTextExample | skolengo/main.go:85 | 15:30 is written `15:30` |
| SchoolDay.ScheduleMessage | skolengo/main.go:96-100 | nothing is scheduled exactly when the target is not strictly after now; otherwise the message is scheduled at the target |
| SchoolDay.DayMessages | skolengo/main.go:51-88 | a day with lessons yields three messages |
| SchoolDay.PlanDay | skolengo/main.go:46-89 | a day without lessons plans nothing, and no day plans more than three messages |
| SchoolDay.PlanDayAhead | skolengo/main.go:96-100 | every planned message lies in the future |
| SchoolDay.PlanDayDropsDue | skolengo/main.go:77-100 | the three times (first start - 1 min, first start + 2 s, last end + 1 min) increase; what is planned is the latest of them, and every dropped one is due |
| SchoolDay.FutureDayPlansThree | skolengo/main.go:77-88 | a day whose first lesson starts more than a minute from now plans all three messages, with the first and last lesson taken by position |
| SchoolDay.TimetablePlansAhead | skolengo/main.go:46-89 | everything planned for a timetable lies in the future, at most three messages per day |
| SchoolDay.EmptyDaysSkipped | skolengo/main.go:47-49 | inserting a day without lessons changes nothing in the plan |
| SchoolDay.PlanOneDay | skolengo/main.go:51-88 | the day's planning, with its summing loop, computes `PlanDay`: three messages around the first and last lesson, minus those already due |
| SchoolDay.PlanDays | skolengo/main.go:46-89 | the loop over the timetable's days computes `PlanTimetable`, the days' plans in order |
| SchoolDay.NextMidnightBounds | skolengo/main.go:91-92 | the next wake-up is a midnight, strictly after now and at most a day away |
| SchoolDay.NoMidnightBefore | skolengo/main.go:91-92 | no midnight lies between now and the next wake-up |
| SchoolDay.Round | skolengo/main.go:36-92 | a round panics exactly when the fetch failed |
| SchoolDay.FetchErrorReported | skolengo/main.go:39-43 | a failed fetch panics a minute after the round's clock reading; the error message, ten seconds after that reading, is scheduled when the fetch fails within ten seconds and is then due before the panic |
| SchoolDay.RoundWakesAtMidnight | skolengo/main.go:91-92 | after a successful fetch the round wakes at a midnight strictly after now and at most a day away |
| SchoolDay.Rounds | skolengo/main.go:36-93 | one outcome per clock reading and fetch; the outcome panics exactly when that fetch failed |
| SchoolDay.Serve | skolengo/main.go:36-93 | the main loop's plans and its stop are those of the rounds run until the first panic |
| SchoolDay.StoppedStays | skolengo/main.go:43 | once the loop has panicked nothing further is planned |
| SchoolDay.FirstFailureStops | skolengo/main.go:39-43 | any failed fetch stops the loop, and nothing is planned after the first panic |

## Left out

- Concurrency is not modelled:
  - the 6-hour refresh ticker goroutine in `runBot`;
  - its unsynchronised writes to the client fields that the day loop reads;
  - the goroutine in `scheduleMessage` that sleeps and then posts.
  The model handles one step at a time, and `DayLoop.Config` fixes the tokens of a run.
- The Slack transport (`fitbit/slack.go`, `sendSlackMessage`) and its JSON bodies are not modelled. A send is an effect with a delivered/failed flag.
- HTTP is reduced to the built request plus an abstract reply: a transport error, or a status and an optional decoded record. JSON (un)marshalling, `tokens.json` I/O and environment variables become parameters; persisting is a boolean outcome.
- `crypto/rand` is an input byte sequence: a read of more bytes than it holds fails. SHA-256 is a function parameter returning 32 bytes.
- `fitbit/callback.go`, `wake-sleep/main.go` and the setup and CLI code in `main`/`startApp` are not part of this model, including the nil dereference when the token JSON is bad.
- Time zones and daylight saving time are not modelled:
  - a local day is 24 hours;
  - an instant is an integer (milliseconds since local midnight for `fitbit`, nanoseconds for `skolengo`);
  - each pass or round receives its clock reading from the trace;
  - `time.Sleep` is an effect (`fitbit`) or a wake-up time (`skolengo`).
- `scheduleMessage` re-reads the clock when it is called. The model compares against the round's single reading, so it takes `GetTimetable` to return at once. In the program a fetch that fails after ten seconds or more schedules no error report before the panic, and a day message due while the fetch was running is dropped.
- The timetable request window, from now to the same time the next day (`now.AddDate(0, 0, 1)`), is not modelled: `SchoolDay.Round` takes the fetched days as an unconstrained input, so nothing ties their lessons to today or tomorrow.
- Both Go main loops never end. The model runs them over a finite trace.
- Float formatting (`%.1f`, `"3:04 PM"`) is not modelled. The summary carries the parsed instants and the hours as exact reals.
- `GoalHours` and the bar percentage are exact rationals, not `float64`; 64-bit overflow of the millisecond total is not modelled.
- SchoolDay.Text: the message strings are written out but carry no contract beyond their parts.
- SchoolDay.MinutesText: renders `Duration.String` for whole minutes only, since that is all `Truncate(time.Minute)` produces. Its contract states the shape of the text, not the full format.
- SleepTime.ParseFitbitTime: accepts the `2006-01-02T15:04:05.000` shape with unsigned digit fields, a one-digit or two-digit hour, and `.` or `,` as the fraction separator. Go's layout parser also takes a leading sign on the fraction digits (`2024-01-01T23:00:00.+12` reads as 12 ms); the model rejects such text, which the provider does not write. Its contract states the validity of the result and, through `FormatParseRoundTrip`, the round trip. Go's rejection messages are not modelled.
- DayLoop.AtMostOncePerDate: assumes the wall clock is never set back across midnight, so that the trace's dates never return to a day once left; NTP or a manual change can break that assumption.
- FitbitApi.SleepUrlInjective: holds only for dates of equal length, since the user id and the date are joined without escaping.
- SleepSummary.SleepBar: durations are taken to be non-negative (`SleepEntry.duration` is a `nat`, where Go has a signed `int64` from the reply), and the bar requires a percentage above -10. Below that, Go's `strings.Repeat` panics on a negative count; that panic is not modelled.
