/** The server's route handlers as methods on the collection they change in
    place. Each method does its work in the order the handler does it and is
    proved to end in the state, and with the reply, that `Handlers` specifies. */
module Store {
  import opened Schema
  import opened Leaderboard
  import opened Handlers

  class UserStore {
    /** The `users` collection, by document id. */
    var users: Table
    /** The next id the database hands out; ids are never reused. */
    var nextId: UserId

    ghost predicate Valid()
      reads this
    {
      forall id :: id in users ==> id < nextId
    }

    constructor ()
      ensures Valid() && users == map[]
    {
      users := map[];
      nextId := 0;
    }

    /** `POST /api/users`: build the document with its defaults under a fresh
        id, save it and reply 201 with it. */
    method CreateUser(name: string, region: string, email: string) returns (reply: Reply)
      requires Valid()
      modifies this
      ensures Valid()
      ensures old(nextId) !in old(users)
      ensures Step(users, reply) == Register(old(users), old(nextId), name, region, email)
    {
      var id := nextId;
      var user := NewUser(name, region, email);
      users := users[id := user];
      nextId := nextId + 1;
      reply := Reply(201, Created(Doc(id, user)));
    }

    /** `POST /api/users/videos/:userId`. */
    method UploadVideo(userId: UserId, file: Option<Payload>, store: StoreResult)
      returns (reply: Reply, storeCalled: bool)
      requires Valid()
      modifies this
      ensures Valid() && nextId == old(nextId)
      ensures UploadStep(users, reply, storeCalled) == Upload(old(users), userId, Video, file, store)
    {
      reply, storeCalled := UploadMedia(userId, Video, file, store);
    }

    /** `POST /api/users/images/:userId`. */
    method UploadImage(userId: UserId, file: Option<Payload>, store: StoreResult)
      returns (reply: Reply, storeCalled: bool)
      requires Valid()
      modifies this
      ensures Valid() && nextId == old(nextId)
      ensures UploadStep(users, reply, storeCalled) == Upload(old(users), userId, Image, file, store)
    {
      reply, storeCalled := UploadMedia(userId, Image, file, store);
    }

    /** The shared body of the two upload handlers: lookup, file check, blob
        store call, then the locator update. */
    method UploadMedia(userId: UserId, media: Media, file: Option<Payload>, store: StoreResult)
      returns (reply: Reply, storeCalled: bool)
      requires Valid()
      modifies this
      ensures Valid() && nextId == old(nextId)
      ensures UploadStep(users, reply, storeCalled) == Upload(old(users), userId, media, file, store)
    {
      if userId !in users {
        return NotFound, false;
      }
      if file.None? {
        return NoFile, false;
      }
      storeCalled := true;
      match store {
        case StoreError(_) =>
          reply := Reply(500, Error(UploadFailedMessage(media)));
        case Stored(url) =>
          var user := users[userId];
          user := WithLocator(user, media, url);
          users := users[userId := user];
          reply := Reply(200, Uploaded(UploadedMessage(media), media, url));
      }
    }

    /** `PUT /api/users/quizscore/:userId`: find the user, set the two quiz
        fields one after the other, save. */
    method UpdateQuizScore(userId: UserId, score: int, timeTaken: int) returns (reply: Reply)
      requires Valid()
      modifies this
      ensures Valid() && nextId == old(nextId)
      ensures Step(users, reply) == SetQuizScore(old(users), userId, score, timeTaken)
    {
      if userId !in users {
        return NotFound;
      }
      var user := users[userId];
      user := user.(quizScore := user.quizScore.(score := Some(score)));
      user := user.(quizScore := user.quizScore.(timeTaken := Some(timeTaken)));
      users := users[userId := user];
      reply := Reply(200, Updated("Quiz score updated successfully", Doc(userId, user)));
    }

    /** `PUT /api/users/snapscore/:userId`: find the user, set the snap score, save. */
    method UpdateSnapScore(userId: UserId, score: int) returns (reply: Reply)
      requires Valid()
      modifies this
      ensures Valid() && nextId == old(nextId)
      ensures Step(users, reply) == SetSnapScore(old(users), userId, score)
    {
      if userId !in users {
        return NotFound;
      }
      var user := users[userId];
      user := user.(snapScore := score);
      users := users[userId := user];
      reply := Reply(200, Updated("Snap score updated successfully", Doc(userId, user)));
    }

    /** `GET /api/users/sort-by-snap-score`: changes nothing. */
    method SortBySnapScore() returns (reply: Reply)
      ensures reply == Reply(200, Listing(SnapBoard(users)))
    {
      reply := Reply(200, Listing(SnapBoard(users)));
    }

    /** `GET /api/users/sort-by-quiz-score`: changes nothing. */
    method SortByQuizScore() returns (reply: Reply)
      ensures reply == Reply(200, Listing(QuizBoard(users)))
    {
      reply := Reply(200, Listing(QuizBoard(users)));
    }
  }
}
