/** The `User` document of the server and the values that travel with it:
    the record shape, the defaults a new record gets, and the two media
    locators an upload can set. */
module Schema {

  datatype Option<+T> = None | Some(value: T)

  /** Document ids. MongoDB generates them; here they are natural numbers and
      the only thing that matters about a new one is that it is not in use. */
  type UserId = nat

  /** The `quizScore` sub-document. A new user gets `{}`, so both fields may
      be absent until the first quiz-score update. */
  datatype QuizScore = QuizScore(score: Option<int>, timeTaken: Option<int>)

  datatype User = User(
    name: string,
    region: string,
    email: string,
    quizScore: QuizScore,
    snapScore: int,
    videoUrl: string,
    imageUrl: string)

  /** A stored document as the queries return it: the record with its id. */
  datatype Doc = Doc(id: UserId, user: User)

  /** The collection: every stored document by id. */
  type Table = map<UserId, User>

  /** The two upload endpoints differ only in which locator they set. */
  datatype Media = Video | Image

  /** The record the registration handler builds from the request body. */
  function NewUser(name: string, region: string, email: string): (u: User)
    ensures u.name == name && u.region == region && u.email == email
    ensures u.quizScore.score.None? && u.quizScore.timeTaken.None?
    ensures u.snapScore == 0 && u.videoUrl == "" && u.imageUrl == ""
  {
    User(name, region, email, QuizScore(None, None), 0, "", "")
  }

  /** The locator field that an upload of `media` writes. */
  function Locator(u: User, media: Media): string
  {
    match media
    case Video => u.videoUrl
    case Image => u.imageUrl
  }

  /** `u` with the locator for `media` set to `url`. */
  function WithLocator(u: User, media: Media, url: string): (r: User)
    ensures Locator(r, media) == url
    ensures OnlyLocatorDiffers(u, r, media)
  {
    match media
    case Video => u.(videoUrl := url)
    case Image => u.(imageUrl := url)
  }

  /** `after` agrees with `before` on every field except the locator for `media`. */
  predicate OnlyLocatorDiffers(before: User, after: User, media: Media)
  {
    && after.name == before.name
    && after.region == before.region
    && after.email == before.email
    && after.quizScore == before.quizScore
    && after.snapScore == before.snapScore
    && (media == Video ==> after.imageUrl == before.imageUrl)
    && (media == Image ==> after.videoUrl == before.videoUrl)
  }
}
