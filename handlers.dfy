/** What each request handler of the server does to the collection and what
    it replies, as functions from the collection before the request to the
    collection after it. The blob store is an input: the outcome it would
    report if it were called. */
module Handlers {
  import opened Schema
  import opened Leaderboard

  /** The uploaded file as multer keeps it in memory. */
  type Payload = seq<bv8>

  /** What the Cloudinary upload reports to its callback. */
  datatype StoreResult = Stored(secureUrl: string) | StoreError(reason: string)

  /** Response bodies, by the JSON shape the handlers send. */
  datatype Body =
    | Created(doc: Doc)                                    // the saved user
    | Error(error: string)                                 // { error }
    | Uploaded(message: string, media: Media, url: string) // { message, videoUrl } or { message, imageUrl }
    | Updated(message: string, doc: Doc)                   // { message, user }
    | Listing(docs: seq<Doc>)                              // the sorted users

  datatype Reply = Reply(status: nat, body: Body)

  /** The collection after a request, and the reply. */
  datatype Step = Step(table: Table, reply: Reply)

  /** The same for an upload, which also says whether the blob store was called. */
  datatype UploadStep = UploadStep(table: Table, reply: Reply, storeCalled: bool)

  const NotFound := Reply(404, Error("User not found"))
  const NoFile := Reply(400, Error("No file uploaded"))

  function UploadFailedMessage(media: Media): string
  {
    match media
    case Video => "Error uploading video"
    case Image => "Error uploading image"
  }

  function UploadedMessage(media: Media): string
  {
    match media
    case Video => "Video uploaded successfully"
    case Image => "Image uploaded successfully"
  }

  /** `after` holds the same records as `before`, except possibly the one under `id`. */
  predicate OnlyRecordChanged(before: Table, after: Table, id: UserId)
  {
    && after.Keys == before.Keys
    && forall k :: k in before && k != id ==> after[k] == before[k]
  }

  /** The fields that no score update touches. */
  predicate SameProfile(before: User, after: User)
  {
    && after.name == before.name
    && after.region == before.region
    && after.email == before.email
    && after.videoUrl == before.videoUrl
    && after.imageUrl == before.imageUrl
  }

  /** `POST /api/users`. `id` is the id the database generates for the new
      document. There is no check on the e-mail address. */
  function Register(t: Table, id: UserId, name: string, region: string, email: string): (s: Step)
    requires id !in t
    ensures s.table.Keys == t.Keys + {id}
    ensures |s.table| == |t| + 1
    ensures forall k :: k in t ==> s.table[k] == t[k]
    ensures s.table[id].name == name && s.table[id].region == region && s.table[id].email == email
    ensures s.table[id].quizScore == QuizScore(None, None)
    ensures s.table[id].snapScore == 0 && s.table[id].videoUrl == "" && s.table[id].imageUrl == ""
    ensures s.reply.status == 201 && s.reply.body == Created(Doc(id, s.table[id]))
  {
    var u := NewUser(name, region, email);
    Step(t[id := u], Reply(201, Created(Doc(id, u))))
  }

  /** `POST /api/users/videos/:userId` (media `Video`) and
      `POST /api/users/images/:userId` (media `Image`): look the user up, then
      check for a file, then call the blob store, then record the locator. */
  function Upload(t: Table, id: UserId, media: Media, file: Option<Payload>, store: StoreResult): (s: UploadStep)
    ensures s.storeCalled <==> id in t && file.Some?
    ensures id !in t ==> s.reply == NotFound && s.table == t
    ensures id in t && file.None? ==> s.reply == NoFile && s.table == t
    ensures s.storeCalled && store.StoreError? ==>
      s.reply == Reply(500, Error(UploadFailedMessage(media))) && s.table == t
    ensures s.storeCalled && store.Stored? ==>
      && s.reply == Reply(200, Uploaded(UploadedMessage(media), media, store.secureUrl))
      && OnlyRecordChanged(t, s.table, id)
      && Locator(s.table[id], media) == store.secureUrl
      && OnlyLocatorDiffers(t[id], s.table[id], media)
  {
    if id !in t then
      UploadStep(t, NotFound, false)
    else if file.None? then
      UploadStep(t, NoFile, false)
    else
      match store
      case StoreError(_) =>
        UploadStep(t, Reply(500, Error(UploadFailedMessage(media))), true)
      case Stored(url) =>
        UploadStep(t[id := WithLocator(t[id], media, url)],
                   Reply(200, Uploaded(UploadedMessage(media), media, url)), true)
  }

  /** `PUT /api/users/quizscore/:userId`: overwrite both quiz fields. */
  function SetQuizScore(t: Table, id: UserId, score: int, timeTaken: int): (s: Step)
    ensures id !in t ==> s == Step(t, NotFound)
    ensures id in t ==>
      && OnlyRecordChanged(t, s.table, id)
      && s.table[id].quizScore == QuizScore(Some(score), Some(timeTaken))
      && s.table[id].snapScore == t[id].snapScore
      && SameProfile(t[id], s.table[id])
      && s.reply == Reply(200, Updated("Quiz score updated successfully", Doc(id, s.table[id])))
  {
    if id !in t then
      Step(t, NotFound)
    else
      var u := t[id].(quizScore := t[id].quizScore.(score := Some(score), timeTaken := Some(timeTaken)));
      Step(t[id := u], Reply(200, Updated("Quiz score updated successfully", Doc(id, u))))
  }

  /** `PUT /api/users/snapscore/:userId`: overwrite the snap score. */
  function SetSnapScore(t: Table, id: UserId, score: int): (s: Step)
    ensures id !in t ==> s == Step(t, NotFound)
    ensures id in t ==>
      && OnlyRecordChanged(t, s.table, id)
      && s.table[id].snapScore == score
      && s.table[id].quizScore == t[id].quizScore
      && SameProfile(t[id], s.table[id])
      && s.reply == Reply(200, Updated("Snap score updated successfully", Doc(id, s.table[id])))
  {
    if id !in t then
      Step(t, NotFound)
    else
      var u := t[id].(snapScore := score);
      Step(t[id := u], Reply(200, Updated("Snap score updated successfully", Doc(id, u))))
  }

  // ---------------------------------------------------------------------
  // Registration

  /** The ids of the records registered under `email`. */
  function EmailHolders(t: Table, email: string): set<UserId>
  {
    set k | k in t && t[k].email == email
  }

  /** A registration adds its new id to the holders of its e-mail address,
      whether or not that address is already registered. */
  lemma RegisterAddsHolder(t: Table, id: UserId, name: string, region: string, email: string)
    requires id !in t
    ensures EmailHolders(Register(t, id, name, region, email).table, email) == EmailHolders(t, email) + {id}
    ensures id !in EmailHolders(t, email)
  {
    var t' := Register(t, id, name, region, email).table;
    forall k ensures k in EmailHolders(t', email) <==> k in EmailHolders(t, email) + {id} {
      if k in t {
        assert t'[k] == t[k];
      }
    }
  }

  /** Registering twice with the same e-mail address stores two records. */
  lemma {:induction false} RegisterTwiceKeepsBoth(t: Table, id1: UserId, id2: UserId,
                                                  name: string, region: string, email: string)
    requires id1 !in t && id2 !in t && id1 != id2
    ensures var t1 := Register(t, id1, name, region, email).table;
            var t2 := Register(t1, id2, name, region, email).table;
            && |t2| == |t| + 2
            && EmailHolders(t2, email) == EmailHolders(t, email) + {id1, id2}
            && |EmailHolders(t2, email)| == |EmailHolders(t, email)| + 2
  {
    var t1 := Register(t, id1, name, region, email).table;
    RegisterAddsHolder(t, id1, name, region, email);
    RegisterAddsHolder(t1, id2, name, region, email);
    AddTwoSize(EmailHolders(t, email), id1, id2);
  }

  lemma AddTwoSize(ids: set<UserId>, id1: UserId, id2: UserId)
    requires id1 !in ids && id2 !in ids + {id1}
    ensures ids + {id1} + {id2} == ids + {id1, id2}
    ensures |ids + {id1, id2}| == |ids| + 2
  {
    assert ids + {id1} + {id2} == ids + {id1, id2};
  }

  // ---------------------------------------------------------------------
  // Uploads

  /** A request that fails the user lookup or the file check gets the same
      answer whatever the blob store would have reported: it never gets there. */
  lemma EarlyExitIgnoresStore(t: Table, id: UserId, media: Media, file: Option<Payload>,
                              store1: StoreResult, store2: StoreResult)
    requires id !in t || file.None?
    ensures Upload(t, id, media, file, store1) == Upload(t, id, media, file, store2)
    ensures !Upload(t, id, media, file, store1).storeCalled
  {
  }

  /** Uploading again replaces the locator: after two successful uploads the
      collection is as if only the second had happened. */
  lemma {:induction false} RetryOverwrites(t: Table, id: UserId, media: Media, file1: Payload, file2: Payload,
                                           url1: string, url2: string)
    ensures var once := Upload(t, id, media, Some(file1), Stored(url1)).table;
            Upload(once, id, media, Some(file2), Stored(url2)).table
              == Upload(t, id, media, Some(file2), Stored(url2)).table
  {
    if id in t {
      var once := Upload(t, id, media, Some(file1), Stored(url1)).table;
      var twice := Upload(once, id, media, Some(file2), Stored(url2)).table;
      var direct := Upload(t, id, media, Some(file2), Stored(url2)).table;
      assert twice.Keys == direct.Keys;
      assert twice[id] == direct[id] by {
        match media
        case Video =>
        case Image =>
      }
      assert forall k :: k in twice ==> twice[k] == direct[k];
    }
  }

  /** A video upload and an image upload write different fields: either
      order leaves the same collection. */
  lemma {:induction false} VideoAndImageCommute(t: Table, id: UserId, video: Payload, image: Payload,
                                                videoUrl: string, imageUrl: string)
    ensures var vi := Upload(Upload(t, id, Video, Some(video), Stored(videoUrl)).table,
                             id, Image, Some(image), Stored(imageUrl)).table;
            var iv := Upload(Upload(t, id, Image, Some(image), Stored(imageUrl)).table,
                             id, Video, Some(video), Stored(videoUrl)).table;
            && vi == iv
            && (id in t ==> vi[id].videoUrl == videoUrl && vi[id].imageUrl == imageUrl)
  {
    if id in t {
      var vi := Upload(Upload(t, id, Video, Some(video), Stored(videoUrl)).table,
                       id, Image, Some(image), Stored(imageUrl)).table;
      var iv := Upload(Upload(t, id, Image, Some(image), Stored(imageUrl)).table,
                       id, Video, Some(video), Stored(videoUrl)).table;
      assert vi[id] == iv[id];
      assert forall k :: k in vi ==> vi[k] == iv[k];
    }
  }

  // ---------------------------------------------------------------------
  // Score updates

  /** The quiz-score update is a plain overwrite: the last write wins. */
  lemma {:induction false} QuizLastWriteWins(t: Table, id: UserId, score1: int, time1: int, score2: int, time2: int)
    ensures SetQuizScore(SetQuizScore(t, id, score1, time1).table, id, score2, time2).table
            == SetQuizScore(t, id, score2, time2).table
  {
    if id in t {
      var twice := SetQuizScore(SetQuizScore(t, id, score1, time1).table, id, score2, time2).table;
      var once := SetQuizScore(t, id, score2, time2).table;
      assert forall k :: k in twice ==> twice[k] == once[k];
    }
  }

  /** Repeating a quiz-score update changes nothing more. */
  lemma QuizIdempotent(t: Table, id: UserId, score: int, timeTaken: int)
    ensures var once := SetQuizScore(t, id, score, timeTaken);
            SetQuizScore(once.table, id, score, timeTaken) == once
  {
    QuizLastWriteWins(t, id, score, timeTaken, score, timeTaken);
  }

  /** The snap-score update is a plain overwrite: the last write wins. */
  lemma {:induction false} SnapLastWriteWins(t: Table, id: UserId, score1: int, score2: int)
    ensures SetSnapScore(SetSnapScore(t, id, score1).table, id, score2).table
            == SetSnapScore(t, id, score2).table
  {
    if id in t {
      var twice := SetSnapScore(SetSnapScore(t, id, score1).table, id, score2).table;
      var once := SetSnapScore(t, id, score2).table;
      assert forall k :: k in twice ==> twice[k] == once[k];
    }
  }

  /** Repeating a snap-score update changes nothing more. */
  lemma SnapIdempotent(t: Table, id: UserId, score: int)
    ensures var once := SetSnapScore(t, id, score);
            SetSnapScore(once.table, id, score) == once
  {
    SnapLastWriteWins(t, id, score, score);
  }

  // ---------------------------------------------------------------------
  // Leaderboards after updates

  /** After a snap-score update the snap leaderboard lists the user at some
      position `i`, with the new score, below every higher score and above
      every lower one. */
  lemma SnapBoardAfterUpdate(t: Table, id: UserId, score: int) returns (i: nat)
    requires id in t
    ensures var t' := SetSnapScore(t, id, score).table;
            var b := SnapBoard(t');
            && i < |b|
            && b[i].id == id && b[i].user == t'[id] && b[i].user.snapScore == score
            && (forall j :: 0 <= j < i ==> b[j].user.snapScore >= score)
            && (forall j :: i < j < |b| ==> b[j].user.snapScore <= score)
  {
    var t' := SetSnapScore(t, id, score).table;
    i := SnapOrderedPlaces(SnapBoard(t'), t', id, score);
  }

  /** In a listing ordered by snap score, a stored record sits behind every
      higher score and ahead of every lower one. */
  lemma SnapOrderedPlaces(b: seq<Doc>, t: Table, id: UserId, score: int) returns (i: nat)
    requires Lists(b, t) && id in t && t[id].snapScore == score
    requires forall i, j :: 0 <= i < j < |b| ==> b[i].user.snapScore >= b[j].user.snapScore
    ensures i < |b|
    ensures b[i].id == id && b[i].user == t[id] && b[i].user.snapScore == score
    ensures forall j :: 0 <= j < i ==> b[j].user.snapScore >= score
    ensures forall j :: i < j < |b| ==> b[j].user.snapScore <= score
  {
    assert Doc(id, t[id]) in b;
    i :| 0 <= i < |b| && b[i] == Doc(id, t[id]);
  }

  /** `a` beats `b` on the quiz: a higher score, or the same score in less time. */
  predicate QuizBeats(a: QuizScore, b: QuizScore)
  {
    && a.score.Some? && b.score.Some?
    && (|| a.score.value > b.score.value
        || (a.score == b.score && a.timeTaken.Some? && b.timeTaken.Some? && a.timeTaken.value < b.timeTaken.value))
  }

  /** On the quiz leaderboard a user with a higher quiz score, or with the
      same score and a shorter time, is listed ahead of the other. */
  lemma QuizBoardRanksAhead(t: Table, ahead: UserId, behind: UserId)
    requires ahead in t && behind in t
    requires QuizBeats(t[ahead].quizScore, t[behind].quizScore)
    ensures var b := QuizBoard(t);
            forall i, j :: 0 <= i < |b| && 0 <= j < |b| && b[i].id == ahead && b[j].id == behind ==> i < j
  {
    QuizOrderedRanksAhead(QuizBoard(t), t, ahead, behind);
  }

  /** The quiz order of a listing, as `QuizBoard` promises it, places a
      winner ahead of the user it beats. */
  lemma QuizOrderedRanksAhead(b: seq<Doc>, t: Table, ahead: UserId, behind: UserId)
    requires Lists(b, t)
    requires ahead in t && behind in t
    requires QuizBeats(t[ahead].quizScore, t[behind].quizScore)
    requires forall i, j ::
      0 <= i < j < |b| && b[i].user.quizScore.score.Some? && b[j].user.quizScore.score.Some? ==>
        b[i].user.quizScore.score.value >= b[j].user.quizScore.score.value
    requires forall i, j ::
      && 0 <= i < j < |b|
      && b[i].user.quizScore.score == b[j].user.quizScore.score
      && b[i].user.quizScore.timeTaken.Some? && b[j].user.quizScore.timeTaken.Some?
      ==> b[i].user.quizScore.timeTaken.value <= b[j].user.quizScore.timeTaken.value
    ensures forall i, j :: 0 <= i < |b| && 0 <= j < |b| && b[i].id == ahead && b[j].id == behind ==> i < j
  {
    forall i, j | 0 <= i < |b| && 0 <= j < |b| && b[i].id == ahead && b[j].id == behind
      ensures i < j
    {
      assert b[i].user == t[ahead] && b[j].user == t[behind];
    }
  }

  /** One participant registers, then posts a quiz score of 80 in 45 seconds
      and a snap score of 12: both leaderboards list just that record, with
      those scores and the registration defaults elsewhere. */
  lemma {:induction false} SingleParticipantScenario()
    ensures var t1 := Register(map[], 0, "Ann", "N", "555-0100").table;
            var t2 := SetQuizScore(t1, 0, 80, 45).table;
            var t3 := SetSnapScore(t2, 0, 12).table;
            var ann := User("Ann", "N", "555-0100", QuizScore(Some(80), Some(45)), 12, "", "");
            && QuizBoard(t3) == [Doc(0, ann)]
            && SnapBoard(t3) == [Doc(0, ann)]
  {
    var t1 := Register(map[], 0, "Ann", "N", "555-0100").table;
    var t2 := SetQuizScore(t1, 0, 80, 45).table;
    var t3 := SetSnapScore(t2, 0, 12).table;
    var ann := User("Ann", "N", "555-0100", QuizScore(Some(80), Some(45)), 12, "", "");
    assert t3 == map[0 := ann];
    OnlyListing(QuizBoard(t3), 0, ann);
    OnlyListing(SnapBoard(t3), 0, ann);
  }

  /** The only listing of a one-record collection. */
  lemma OnlyListing(b: seq<Doc>, id: UserId, u: User)
    requires Lists(b, map[id := u])
    ensures b == [Doc(id, u)]
  {
    assert b[0].id in map[id := u];
  }
}
