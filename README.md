# Participant records server: a Dafny model

The server (`server.js`) keeps one MongoDB collection of `User` documents. Each document has a
name, region and e-mail address, a quiz-score sub-document (`score`, `timeTaken`), a snap
score, and two media locators (`videoUrl`, `imageUrl`). The server exposes seven routes:

- registration (`POST /api/users`);
- two uploads (`POST /api/users/videos/:userId`, `POST /api/users/images/:userId`), which push
  the file to Cloudinary and store the returned `secure_url` on the user;
- two score overwrites (`PUT /api/users/quizscore/:userId`, `PUT /api/users/snapscore/:userId`);
- two leaderboards (`GET /api/users/sort-by-snap-score`, `GET /api/users/sort-by-quiz-score`).

The model replaces the database with an in-memory map from id to record, and the blob store
with an input: the result Cloudinary would report if it were called.

- `schema.dfy` (module `Schema`): the record shape, the registration defaults and the two
  locator fields.
- `leaderboard.dfy` (module `Leaderboard`): the collection scan and the two sort orders.
  MongoDB's sort is modelled as an insertion sort that is proved to give a sorted
  permutation of the stored records.
- `handlers.dfy` (module `Handlers`): each write handler as a function from the collection
  before the request to the collection after it, plus the reply. The lemmas relating the
  handlers live here too: overwrite semantics, error precedence, no uniqueness on e-mail,
  and leaderboard positions after an update.
- `store.dfy` (module `Store`): class `UserStore`, which holds the collection and the id
  counter. Its methods perform each handler's steps in the handler's order and are proved
  to reach exactly the state and reply that `Handlers` specifies. `Valid()` keeps every
  stored id below the counter, so each new id is fresh.

Some behaviour of the code differs from what a reader of the route list might expect. The model follows the code:

- Registration does not check whether the e-mail address is already registered.
  `RegisterTwiceKeepsBoth` proves that two registrations with one address store two records.
- Registration replies 201, not 200.
- A new record gets `quizScore: {}`, so the score and time are absent rather than zero.
  They are `Option<int>` in the model.
- There is no generic `upload` route and no `userComment` field.

The ordering of absent quiz fields follows MongoDB's comparison order: an absent value sorts
below every number. So a missing score ranks last, and among equal scores a missing time
ranks first. The leaderboard contracts only constrain records whose fields are set.

## Model

| member | source | states |
|---|---|---|
| `Schema.NewUser` | server.js:48 | a new record carries the given name, region and e-mail, an empty quiz sub-record, snap score 0 and empty locators |
| `Schema.WithLocator` | server.js:76-78 | setting a locator makes that locator the given URL and leaves every other field as it was |
| `Leaderboard.Scan` | server.js:170 | `User.find()` lists every stored record exactly once, under its own id; the model scans in ascending id order, which MongoDB does not promise and no leaderboard contract relies on |
| `Leaderboard.Sort` | server.js:170 | the sort returns a permutation of its input, ordered by the requested sort specification |
| `Leaderboard.Board` | server.js:167-185 | a sorted full scan lists exactly the stored records, each once, in the requested order |
| `Leaderboard.SnapBoard` | server.js:167-175 | the snap leaderboard lists every record exactly once, with non-increasing snap scores |
| `Leaderboard.QuizBoard` | server.js:177-185 | the quiz leaderboard lists every record exactly once, by score descending and, among equal scores, by time ascending |
| `Leaderboard.ListsPermutation` | server.js:170 | any permutation of a listing of the collection is again a listing of it (no record lost or duplicated by sorting) |
| `Handlers.Register` | server.js:45-54 | registration adds exactly one record under a fresh id, with the defaults, leaves all others alone and replies 201 with the new document |
| `Handlers.RegisterAddsHolder` | server.js:47-49 | registering adds the new id to the records holding that e-mail, whether or not the address was already in use |
| `Handlers.RegisterTwiceKeepsBoth` | server.js:45-50 | two registrations with the same e-mail store two distinct records with that e-mail, and the collection grows by two |
| `Handlers.Upload` | server.js:56-122 | unknown user gives 404, then missing file gives 400, without touching the collection or calling the blob store; a store error gives 500 with no change; on success only that user's video or image locator changes, to the returned URL, with reply 200 |
| `Handlers.EarlyExitIgnoresStore` | server.js:60-67 | an upload that fails the user lookup or the file check gives the same result whatever the blob store would report, and never calls it |
| `Handlers.RetryOverwrites` | server.js:69-79 | after two successful uploads of the same kind the collection equals that after the second alone (the last locator wins) |
| `Handlers.VideoAndImageCommute` | server.js:105-115 | a video upload and an image upload write different fields: in either order both locators end up set |
| `Handlers.SetQuizScore` | server.js:124-145 | unknown user gives 404 with no change; otherwise only that user's quiz score and time change, to the given values, with reply 200 and the updated user |
| `Handlers.SetSnapScore` | server.js:147-165 | unknown user gives 404 with no change; otherwise only that user's snap score changes, with reply 200 and the updated user |
| `Handlers.QuizLastWriteWins` | server.js:134-138 | two quiz-score updates leave the collection as the second alone would |
| `Handlers.QuizIdempotent` | server.js:134-138 | repeating a quiz-score update gives the same collection and reply |
| `Handlers.SnapLastWriteWins` | server.js:157-159 | two snap-score updates leave the collection as the second alone would |
| `Handlers.SnapIdempotent` | server.js:157-159 | repeating a snap-score update gives the same collection and reply |
| `Handlers.SnapBoardAfterUpdate` | server.js:147-175 | after a snap-score update the snap leaderboard lists the user with the new score, behind every higher score and ahead of every lower one |
| `Handlers.QuizBoardRanksAhead` | server.js:177-185 | on the quiz leaderboard a user with a higher score, or the same score and a shorter time, is listed ahead of the other |
| `Handlers.SingleParticipantScenario` | server.js:45-185 | register, post quiz 80 in 45 s and snap 12: both leaderboards list exactly that record with those values |
| `Store.UserStore.CreateUser` | server.js:45-54 | the collection and reply after registration are those of `Register` under the next unused id; the id invariant is kept |
| `Store.UserStore.UploadVideo` | server.js:56-86 | the collection, reply and blob-store call are those of `Upload` for a video |
| `Store.UserStore.UploadImage` | server.js:88-122 | the collection, reply and blob-store call are those of `Upload` for an image |
| `Store.UserStore.UploadMedia` | server.js:56-86 | the lookup, file check, store call and locator update, in the handler's order, give the result of `Upload` |
| `Store.UserStore.UpdateQuizScore` | server.js:124-145 | setting the two quiz fields in turn and saving gives the collection and reply of `SetQuizScore` |
| `Store.UserStore.UpdateSnapScore` | server.js:147-165 | setting the snap score and saving gives the collection and reply of `SetSnapScore` |
| `Store.UserStore.SortBySnapScore` | server.js:167-175 | replies 200 with the snap leaderboard of the current collection and changes nothing |
| `Store.UserStore.SortByQuizScore` | server.js:177-185 | replies 200 with the quiz leaderboard of the current collection and changes nothing |

## Left out

- HTTP routing, CORS, JSON body parsing and the listening port (server.js:8-10, 189-192): this is
  transport, and the model takes request parameters directly.
- The MongoDB connection and persistence calls. The collection is an in-memory map. ObjectId
  generation is modelled only as "the next id of a counter, never in use".
- Malformed id strings: `findById` would throw a cast error and the generic `catch` would reply
  500. Ids are natural numbers in the model, so an id is either stored or unknown (404).
- The generic `catch` branches that reply 500 on database failures, and the `findByIdAndUpdate`
  inside the upload callbacks (server.js:78, 114), whose failure is an unhandled rejection
  outside the `try`. The model assumes database calls succeed.
- The multer memory storage and the Cloudinary calls themselves (server.js:35-43, 69, 105).
  The blob store is an input outcome: a URL or an error.
- The base64 data URI built for image uploads (server.js:102-105). It only feeds the foreign
  upload call.
- Console logging.
- Scores and times are JavaScript numbers (floating point). They are integers here.
- Request bodies with missing fields, which would store `undefined`: names, scores and times
  are always given in the model.
- The order in which MongoDB returns documents before sorting, and so the order of records
  tied on the sort keys, is MongoDB's choice. The model scans in ascending id order and
  fixes one tie order, but no leaderboard contract states or relies on either.
- Concurrent requests on the same record: the model handles one request at a time, and
  concurrency in the source is only the database's last-write-wins.
