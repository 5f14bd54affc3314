# Prepper career quiz — verified model

Prepper is a career-assessment quiz. Users sign up, log in, answer a fixed set
of multiple-choice questions and receive a career recommendation from a stub
scorer; an admin account can view usage statistics. This project models the
sequential logic of the application in Dafny and proves its properties:

- **Server store and route handlers** (`store.dfy`, module `Store`): the
  in-memory document with its `users`, `attempts` and `questions` lists is the
  class `Store.Db`; seeding, signup, login, `/auth/me`, quiz submission and the
  admin statistics are its methods, each returning the HTTP status with the
  key fields of the body. Lookups are the linear scan `Db.FindUser`, specified
  by `FindFirst` (the first match, as `Array.prototype.find` returns). The
  statistics' filter / newest-first sort / first-five slice are functions,
  the sort a stable insertion sort proved sorted and a permutation.
- **Stub recommender** (`recommender.dfy`, module `Recommender`): answer
  points are summed, three clamped linear confidences are derived (exact
  `real` arithmetic), and the first candidate with a strictly greatest
  confidence is chosen. Proved: for every score, Software Development beats
  Data Science, which beats Product Management, so the recommendation is
  always Software Development with confidence min(95, max(60, 2·score)).
- **Request gates** (`gates.dfy`, module `Gates`): `authenticateToken` takes
  the second space-separated word of the `Authorization` header as the token;
  the scheme word is never checked (`TokenAfterAnyScheme`). An absent token
  gives 401, a token that fails verification 403; `requireAdmin` gives 403
  unless the role is `"admin"`.
- **Quiz page** (`quiz_page.dfy`, module `QuizPage`): the class `Quiz` holds
  the cursor and one answer slot per question; its methods are the page's
  handlers, and it derives the counts, the quick-navigation window, the
  forward button and the progress percentage.
- **Result page** (`result_page.dfy`, module `ResultPage`): the label, text
  colour and bar colour classifiers, proved to agree with one reference
  banding and to be monotone.
- **Admin route** (`admin_route.dfy`, module `AdminRoute`): the `checkAdmin`
  decision over the stored token, the cached user and the `/auth/me` reply,
  and the render decision (spinner / redirect / children).
- **Cross-component facts** (`flow.dfy`, module `Flow`): an answer array the
  quiz page posts passes the server's checks, and the recommended confidence
  is never shown as low confidence.

Conventions. A JavaScript value that is falsy where the code tests it (a
missing body field, an absent local-storage token, a missing role) is the
empty string `""`. Foreign calls are parameters: the salted password hash
(`hashed`, `adminHash`), the password comparison (`compare`), token
verification (`verify`, giving the token's claims), the generated identifier
(`freshId`) and the current time as an integer timestamp (`now`). An issued
token is represented by the claims it is signed over (`Gates.Claims`).
The server reply `/auth/me` gives the admin route is a parameter (`MeReply`).

Observed behaviour kept as written: the admin statistics list only the
attempts of the calling admin (the filter compares `userId` with the caller's
id), not all attempts. A cached user entry in local storage that cannot be
parsed makes `checkAdmin` throw before `loading` is cleared, and so does an
entry holding `null` once a token is stored (reading its role throws; with no
token the check short-circuits and redirects). In those cases the admin route
shows its spinner for good (`CheckAdmin`'s `loading` clause).

## Model

| member | source | states |
|---|---|---|
| `Recommender.Points` | server/index.js:218-221 | an answer contributes 3 exactly for option A, 2 exactly for B or D, and 1 for C and any other option id |
| `Recommender.Score` | server/index.js:216-222 | the summed score of n answers lies between n and 3n |
| `Recommender.Clamp` | server/index.js:227 | `min(hi, max(lo, x))` lies in [lo, hi], is x inside the bounds and the nearer bound outside |
| `Recommender.Candidates` | server/index.js:224-276 | three templates in declaration order, with confidences in [60,95] (Software Development), [55,90] (Data Science), [50,85] (Product Management) |
| `Recommender.SelectIndex` | server/index.js:279-281 | the reduce keeps a candidate whose confidence is greatest and strictly above every earlier one, so ties keep the earlier candidate |
| `Recommender.ConfidencesStrictlyOrdered` | server/index.js:224-276 | for every non-negative score, Software Development's confidence is strictly above Data Science's, which is strictly above Product Management's |
| `Recommender.AlwaysSoftwareDevelopment` | server/index.js:216-281 | the recommendation is always Software Development with confidence min(95, max(60, 2·score)), hence in [60, 95] |
| `Gates.SecondWord` | server/index.js:34 | `split(' ')[1]` is undefined exactly when the header has no space, and otherwise is the maximal space-free segment right after the first space (empty after a double space) |
| `Gates.ExtractToken` | server/index.js:33-34 | an extracted token is non-empty and space-free; an absent header, one without a space, or an empty second word (a double space) yields no token |
| `Gates.TokenAfterAnyScheme` | server/index.js:34 | any space-free first word followed by a space and a token yields exactly that token: the scheme is not checked |
| `Gates.Authenticate` | server/index.js:32-47 | no token gives 401 "Access token required", a failed verification 403 "Invalid or expired token", and a token that verifies passes with exactly its claims |
| `Gates.RequireAdmin` | server/index.js:49-54 | the request passes exactly when the role is "admin", otherwise 403 "Admin access required" |
| `Gates.NonAdminTokenForbidden` | server/index.js:309 | a bearer token that verifies to non-admin claims is always refused by the admin chain with 403 |
| `Gates.AdminGatePassesOnlyAdmins` | server/index.js:309 | the admin chain passes exactly when a token is present and verifies to claims with role "admin" |
| `Store.FindFirst` | server/index.js:101 | the index found satisfies the predicate and no earlier element does; no index means no element satisfies it |
| `Store.Db.FindUser` | server/index.js:149 | the linear scan over `users` returns the first matching index, as `FindFirst` specifies |
| `Store.CountZeroIffAbsent` | server/index.js:63 | an email has no registrations exactly when no user has it |
| `Store.SeedRegistersAdminOnce` | server/index.js:62-76 | after seeding the admin email is registered once if it was absent and as often as before otherwise, so it is never added twice |
| `Store.SeedIdempotent` | server/index.js:57-85 | seeding a seeded store changes nothing, for users and for questions |
| `Store.Db.Seed` | server/index.js:57-85 | the admin account is appended only when its email is absent, the question file replaces the questions only when there are none, attempts are untouched and distinct emails stay distinct |
| `Store.AppendKeepsEmailsDistinct` | server/index.js:100-117 | appending a user whose email is unregistered keeps emails pairwise distinct |
| `Store.Db.Signup` | server/index.js:90-136 | a missing field or a registered email gives 400 with `users` unchanged; otherwise exactly one user with role "user" is appended, 201 returns its claims and summary, and distinct emails stay distinct |
| `Store.LoginResult` | server/index.js:138-176 | 400 exactly for a missing field; every other failure is the same 401 "Invalid credentials"; success returns the claims and summary of the first user with that email, whose password compares equal; for a present email, a matching password of that first user always succeeds and a wrong one gives 401 |
| `Store.Db.Login` | server/index.js:138-176 | the handler's response is `LoginResult` of the current users |
| `Store.SignupThenLogin` | server/index.js:138-171 | after a signup, logging in with the same email and password returns the new user's claims and summary |
| `Store.MeResult` | server/index.js:178-191 | 404 "User not found" exactly when no user has the caller's id; otherwise the summary of the first user with that id |
| `Store.Db.Me` | server/index.js:178-191 | the gate's 401/403 are passed on; past the gate the response is `MeResult` for the caller's id |
| `Store.Insert` | server/index.js:316 | inserting into a newest-first list keeps it newest-first and adds exactly the one element |
| `Store.SortNewestFirst` | server/index.js:316 | the sorted list is ordered by non-increasing `completedAt` and is a permutation of its input |
| `Store.OwnedBy` | server/index.js:315 | the filter keeps every attempt of the caller with its multiplicity and nothing else |
| `Store.PrefixIsNewest` | server/index.js:317 | what the first-k slice of a newest-first list leaves out is not newer than the slice's last element |
| `Store.Recent` | server/index.js:314-317 | at most five entries (exactly min(5, caller's attempts)), all the caller's and drawn from `attempts`, newest first, and no omitted attempt of the caller is newer than the last shown |
| `Store.Db.Submit` | server/index.js:200-306 | 401/403 from the gate, 400 when `answers` is not an array, 500 for a null entry, all with `attempts` unchanged; otherwise the submission succeeds: exactly one attempt with the caller's id and the recommendation is appended and returned with its id |
| `Store.Db.Stats` | server/index.js:309-331 | the gate's 401/403 are passed on; otherwise the totals are the list lengths and `recentAttempts` is `Recent` for the caller |
| `Store.Db.constructor` | server/index.js:16-17 | the document starts with three empty lists |
| `QuizPage.CountsPartition` | client/src/pages/QuizPage.jsx:224-225 | answered plus remaining is the number of slots |
| `QuizPage.NoneRemainingIffAllAnswered` | client/src/pages/QuizPage.jsx:53-54 | the unanswered count is zero exactly when every slot is filled |
| `QuizPage.Buttons` | client/src/pages/QuizPage.jsx:180-182 | the buttons kept are consecutive indices from the start, all below the question count, and exactly as many as fit |
| `QuizPage.NavWindow` | client/src/pages/QuizPage.jsx:180-198 | the window starts at max(0, current-2), shows at most min(5, count) indices (exactly as many as fit below count), all below count, and includes the current question |
| `QuizPage.Quiz.constructor` | client/src/pages/QuizPage.jsx:6-10 | no questions, cursor 0, no answers, loading, not submitting |
| `QuizPage.Quiz.Loaded` | client/src/pages/QuizPage.jsx:13-28 | on success the answers are all null, one per fetched question; on failure nothing but loading changes |
| `QuizPage.Quiz.Choose` | client/src/pages/QuizPage.jsx:30-37 | only slot `current` changes, to the current question's id and the chosen option; length and other slots unchanged |
| `QuizPage.Quiz.Next` | client/src/pages/QuizPage.jsx:39-43 | advances only when not at the last question, keeping the cursor in range |
| `QuizPage.Quiz.Previous` | client/src/pages/QuizPage.jsx:45-49 | retreats only when above 0, keeping the cursor in range |
| `QuizPage.Quiz.JumpTo` | client/src/pages/QuizPage.jsx:185-187 | a quick-navigation button moves the cursor to its index, which stays in range |
| `QuizPage.Quiz.Submit` | client/src/pages/QuizPage.jsx:51-59 | with null slots it reports their number and posts nothing; otherwise it starts submitting and posts the whole array, which has no null |
| `QuizPage.Quiz.SubmitSettled` | client/src/pages/QuizPage.jsx:68-70 | submitting ends whatever the request's outcome |
| `QuizPage.Quiz.Counts` | client/src/pages/QuizPage.jsx:224-225 | answered plus remaining equals the number of questions; nothing remains exactly when every slot is filled |
| `QuizPage.Quiz.ForwardButton` | client/src/pages/QuizPage.jsx:202-217 | Submit appears exactly at the last question; an enabled button means the current slot is answered, an enabled Submit also means not submitting; Next is enabled once the slot is answered, and Submit once the slot is answered while not submitting |
| `QuizPage.Quiz.ProgressPercent` | client/src/pages/QuizPage.jsx:73 | the progress lies in (0, 100] and is 100 exactly at the last question |
| `ResultPage.BandOf` | client/src/pages/ResultPage.jsx:30-40 | High exactly from 80, Medium exactly on [60, 80), Low exactly below 60 |
| `ResultPage.ConfidenceColor` | client/src/pages/ResultPage.jsx:30-34 | the text colour is the one of the score's band: green, yellow, red |
| `ResultPage.ConfidenceLabel` | client/src/pages/ResultPage.jsx:36-40 | the label is the one of the score's band: High, Medium, Low Confidence |
| `ResultPage.BarColor` | client/src/pages/ResultPage.jsx:138-141 | the bar colour is the one of the score's band |
| `ResultPage.ClassifiersAgree` | client/src/pages/ResultPage.jsx:30-40 | label, text colour and bar colour always fall in the same band for the same score |
| `ResultPage.BandMonotone` | client/src/pages/ResultPage.jsx:30-40 | a higher score never yields a lower band |
| `AdminRoute.CheckAdmin` | client/src/components/AdminRoute.jsx:10-34 | loading stays on only for a cache entry that fails to parse, or holds `null` while a token is stored; a `null` entry without a token redirects; the server is asked exactly for a token with a non-empty non-admin cached role; an accepted user is an admin; the cache changes only to the server's user |
| `AdminRoute.Render` | client/src/components/AdminRoute.jsx:39-54 | only the spinner while loading; children exactly for a loaded admin user; a redirect to /dashboard otherwise |
| `AdminRoute.AccessDecision` | client/src/components/AdminRoute.jsx:14-33 | access exactly for a token with a cached admin role or a server-confirmed admin; no token or role redirects without asking the server; a failed or non-admin reply redirects |
| `AdminRoute.Route.constructor` | client/src/components/AdminRoute.jsx:5-7 | no user and loading at mount |
| `AdminRoute.Route.RunCheck` | client/src/components/AdminRoute.jsx:9-37 | the new user, loading flag, cache and consultation are those of `CheckAdmin` |
| `AdminRoute.Route.View` | client/src/components/AdminRoute.jsx:39-54 | the spinner while loading; children exactly for a loaded admin user; a redirect to /dashboard otherwise |
| `Flow.PostedAnswersAreScored` | client/src/pages/QuizPage.jsx:51-61 | an array the quiz page posts has no null entry, so the server scores it, with a score between its length and three times it |
| `Flow.RecommendationBand` | client/src/pages/ResultPage.jsx:100-104 | the recommendation is never labelled low confidence, and is labelled high confidence exactly when the score is at least 40 |

## Left out

- Password hashing and comparison (bcrypt) and token signing and verification (JWT, including the 7-day expiry): foreign calls, modelled as parameters.
- Disk persistence (`db.read`, `db.write`), the question file load, `shortid.generate` and the clock: I/O and generated values, modelled as parameters.
- The lost-update race between concurrent requests that each read, change and write the whole document: concurrency, not designed behaviour.
- Express routing, CORS, `app.listen`, `/health`, `GET /quiz/questions` (returns the question list unchanged), logging and the 500 catch-all for storage errors: glue and I/O.
- Response bodies beyond the status, the error message and the key fields; the `message` strings of successful signup and login.
- Floating point: confidences and the progress percentage are exact reals, so JavaScript rounding is not modelled.
- The explanation, strengths and roadmap texts of each career template: constant strings per path.
- Answer option ids naming properties that every JavaScript object inherits (such as `toString`): the score lookup then yields a non-number and the confidences become NaN; option ids are plain strings in the model.
- `answers` entries that are neither `null` nor objects (numbers, strings, booleans): reading their `answer` gives `undefined`, so each scores 1 and is stored as posted; `AnswersField.Entries` holds only null entries and answer records, so such entries are not represented.
- Body field values that are neither strings nor arrays (numbers, objects, booleans): a field is either a string, empty when falsy, or an answers field of the three modelled shapes.
- `Store.Recent`, `Store.SortNewestFirst`: the stable order among attempts with equal `completedAt` is computed but not stated.
- Browser I/O of the client: local storage writes beyond the cached user, `navigate`, `alert`, the result page's loading effect, and the pages that are markup or routing only.
