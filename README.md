# Security-score mock data generator, modelled in Dafny

The application shows a user's "security score": a number from 0 to 100, its
level (critical, warning, caution or safe), a table of weighted security
factors and a login history. All of it comes from one synthetic generator,
`src/lib/mockData.ts`. This project models that generator:

- `Security` (`security.dfy`): the records `LoginAttempt`, `SecurityFactor` and
  `UserSecurityData`, the fixed lists of browsers, operating systems, countries
  and login types, and `GetScoreLevel`, which maps a score to its level.
- `LoginHistory` (`login_history.dfy`): `generateLoginHistory`. Its loop pushes
  one record per iteration. Then an in-place sort puts the records newest first.
  The loop is a `for` loop over a local sequence. The sort is an insertion sort
  over an array.
- `SecurityData` (`security_data.dfy`): `generateSecurityData`. It draws a score
  and derives the level, the account flags, the failed-attempt count and the
  password-change date. It generates a history and builds the nine-factor table.
- `Draws` (`draws.dfy`): how random draws are represented.

Each call of the platform's uniform generator is an explicit parameter of type
`Draw`, a real number in [0, 1). The model keeps the source's thresholds as
written (`r > 0.3`, `r > 0.85`, ...). `Math.floor(r * n)` is `Scaled(r, n)`,
which is always in 0..n-1. An element picked from a list is therefore always
in that list. The draws of one loop iteration are grouped in
`AttemptDraws` and the draws of one assembly in `SecurityDraws`. Timestamps are
integer milliseconds, and the current time `now` is a parameter.

The code does not compute the score from the factors or from the history. The
score is drawn at random. The factor flags are drawn from the score plus
further draws, and `isNewUser` is a draw of its own. There is no
history-consistency analysis, no grouping of factors and no aggregation of
weights into the score. The model follows the code, not a scoring engine that
the code does not contain. The table has nine flat factors with the weights
10, 8, 8, 10, 12, 15, 10, -15 and -12.

The nine factors are built from one table of kinds. `FactorKind` names them,
and `FactorOrder` lists them in the source's order. `FactorId`, `Weight`,
`CategoryOf`, `FactorName` and `FactorDescription` give each kind's fixed
fields. `IsActiveFor` gives its activation rule and `DetailsFor` its text.
The five history-dependent factors are active only for a user who is not new.
Their explanatory text follows the ungated signal, so a new user's `same_ip`
factor can be inactive while its text says the IP matches the history. The
model keeps this as the code has it.

## Model

| member | source | states |
|---|---|---|
| `Draws.Scaled` | src/lib/mockData.ts:53 | `Math.floor(r * n)` of a draw lies in 0..n-1 and is the integer part of `r * n` |
| `Draws.RandomElement` | src/lib/mockData.ts:52-54 | `getRandomElement` always returns an element of the list it is given |
| `Security.GetScoreLevel` | src/lib/mockData.ts:56-61 | critical exactly below 40, warning exactly on 40..69, caution exactly on 70..89, safe exactly from 90 up |
| `Security.ScoreLevelMonotone` | src/lib/mockData.ts:56-61 | a higher score never gets a lower level in the order critical < warning < caution < safe |
| `LoginHistory.SecondFactor` | src/lib/mockData.ts:84-89 | a password login gets OTP or email, never none; a passwordless or social login gets OTP or none, never email |
| `LoginHistory.SecondFactorReachesAllAllowed` | src/lib/mockData.ts:84-89 | every second factor the rule allows for a login type is produced by some draw, so the rule is exact |
| `LoginHistory.Decimal` | src/lib/mockData.ts:92 | the loop index in an id is a non-empty string of decimal digits whose value is the index |
| `LoginHistory.AttemptIdsDiffer` | src/lib/mockData.ts:92 | ids built in different iterations differ whatever their random suffixes, because the digits after `login_` spell the iteration |
| `LoginHistory.AttemptDate` | src/lib/mockData.ts:74-78 | an attempt's time lies between 29 days 23 hours before `now` and `now` |
| `LoginHistory.AttemptAt` | src/lib/mockData.ts:74-102 | each pushed record has an allowed second factor, a time within the window, and an OS, browser and country from the fixed lists; an attempt that keeps the base carries exactly the base fingerprint, OS, browser and IP with country `Brasil`; any other attempt carries its own fresh fingerprint and IP |
| `LoginHistory.PushedIdsDistinct` | src/lib/mockData.ts:70-103 | no two records pushed by the loop share an id |
| `LoginHistory.ConsistentAttemptsAgree` | src/lib/mockData.ts:64-100 | any two attempts that took the consistent branch agree on fingerprint, OS, browser, IP and country |
| `LoginHistory.SortNewestFirst` | src/lib/mockData.ts:105 | the sort leaves the array ordered by non-increasing `dateTime` and a permutation of what it was |
| `LoginHistory.GenerateLoginHistory` | src/lib/mockData.ts:63-106 | returns exactly `count` attempts: a permutation of the records pushed in iterations 0..count-1, newest first, each well formed, with pairwise different ids |
| `SecurityData.DrawScore` | src/lib/mockData.ts:109 | the score lies in 0..100 |
| `SecurityData.HasOtpEnabled` | src/lib/mockData.ts:113 | a draw above 0.7 enables OTP at any score, a draw of at most 0.3 never does, and a draw in between enables it exactly when the score exceeds 50 |
| `SecurityData.HasRecentPasswordChange` | src/lib/mockData.ts:114 | a draw above 0.8 makes the change recent at any score, a draw of at most 0.4 never does, and a draw in between does exactly when the score exceeds 60 |
| `SecurityData.FailedLoginAttempts` | src/lib/mockData.ts:115 | 3..12 failed attempts below a score of 50, 0..2 otherwise |
| `SecurityData.LastPasswordChange` | src/lib/mockData.ts:117-119 | the last change lies within the last 90 days exactly when it counts as recent; otherwise it is 90 to 454 days back; never in the future |
| `SecurityData.HistoryLength` | src/lib/mockData.ts:121 | the history has 5..10 entries |
| `SecurityData.DrawSignals` | src/lib/mockData.ts:124-130 | each signal holds only past its score guard (> 40, > 45, > 35, > 50, > 55 for the positive ones, < 50 and < 45 for the alerts); hence the many-failed-attempts alert never comes with a matching fingerprint or standard behaviour, and the infrastructure alert never with a matching user agent, fingerprint or standard behaviour |
| `SecurityData.SignalsMonotoneInScore` | src/lib/mockData.ts:113-130 | for the same draws, a higher score never switches OTP, the recent change or a positive signal off, never switches an alert on, and never raises the failed-attempt count |
| `SecurityData.FactorIdsDistinct` | src/lib/mockData.ts:132-216 | the nine factor ids are pairwise different |
| `SecurityData.KindTable` | src/lib/mockData.ts:132-216 | for each kind, the category is negative exactly when the weight is negative, no weight is zero, and the alert and history-dependent ids are exactly those listed as such |
| `SecurityData.FactorTable` | src/lib/mockData.ts:132-216 | nine factors in the source's order, with distinct ids and fixed weights; `negative` exactly for the two negative weights (-15, -12), positive weight otherwise; all five history-dependent factors inactive for a new user |
| `SecurityData.ActiveInTable` | src/lib/mockData.ts:132-216 | looked up by id, each factor is active exactly when its kind's activation rule holds |
| `SecurityData.AccountFactors` | src/lib/mockData.ts:132-188 | the `password_change` factor is active exactly when the change is recent, and `otp_enabled` exactly when OTP is enabled |
| `SecurityData.NewUserGate` | src/lib/mockData.ts:144-197 | for a new user, `same_ip`, `same_user_agent`, `same_country`, `same_fingerprint` and `standard_behavior` are all inactive |
| `SecurityData.ScoreGuards` | src/lib/mockData.ts:124-130 | each active factor implies its score guard: `same_ip` needs > 40, `same_user_agent` > 45, `same_country` > 35, `same_fingerprint` > 50, `standard_behavior` > 55, `failed_attempts` < 50, `different_infrastructure` < 45 |
| `SecurityData.GenerateSecurityData` | src/lib/mockData.ts:108-229 | every field is the one its draws determine: the score is `DrawScore` of its draw, `isNewUser` is a draw above 0.85, and OTP, the recent change, the failed attempts, the password-change date and the history length come from `HasOtpEnabled`, `HasRecentPasswordChange`, `FailedLoginAttempts`, `LastPasswordChange` and `HistoryLength`; score in 0..100 with `scoreLevel == GetScoreLevel(score)`; failed attempts and password-change date bounded by branch; a password-change date is always present; a newest-first history of 5..10 attempts that is a permutation of the records generated with `consistentData == (score > 50)`, with distinct ids; the factors are the table built from the drawn flags |

## Left out

- The platform's random generator and floating point. Draws are exact reals in [0, 1), so rounding of a product such as `r * 7776000000` to a double is not modelled. Which physical draw feeds which decision is not modelled either: each decision has its own named draw.
- `generateFingerprint` and `generateIP` (src/lib/mockData.ts:44-50) and the base-36 suffix of an id. Their results are opaque strings among the draws.
- Calendar arithmetic. `setDate` and `setHours` are taken as subtracting whole days of 86 400 000 ms and whole hours of 3 600 000 ms. Daylight-saving shifts are ignored.
- Locale formatting. `toLocaleDateString` in the password-change text and the template text of the failed-attempts factor are kept as the values they format (`Details.LastChangeOn`, `Details.FailedCount`), not as strings.
- The clock. The source reads it twice: `new Date()` inside `generateLoginHistory` (src/lib/mockData.ts:71) and `Date.now()` for the password-change date (src/lib/mockData.ts:118-119). The model passes one `now` to both, so the few milliseconds between the two reads are not modelled.
- The default `consistentData = true` of `generateLoginHistory`. Its only caller passes the argument explicitly.
- A `count` that is negative or fractional. The model takes `count` as a natural number.
- `LoginHistory.SortNewestFirst`: the order among attempts with equal `dateTime` is not stated. The sort is stable, but the contract gives only ordering and permutation.
- `HighRiskCountries` (src/lib/mockData.ts:41) is declared as a constant. The generator never reads it.
- `lastPasswordChange` may be null by its type. The generator always sets it, so the model always returns `Some`.
- The pages and components (`src/pages/Index.tsx`, `src/pages/SecurityScorePage.tsx`, `src/components/*.tsx`) are not part of this model. They only render, and `SecurityScorePage` reads a `factorGroups` field that the generator does not produce.
