/**
 * Value types of the data-access layer: the tri-state `Resource`, the request and
 * response bodies of the four remote operations, and the outcome of one HTTP call
 * as the repositories see it.
 */
module Domain {
  import opened Common

  /**
   * `Resource<T>`: Loading, Success with a (nullable) payload, or Error with a
   * (nullable) message. Screens read `data?.let` and `message ?: …`, hence the options.
   */
  datatype Resource<T> = Loading | Success(data: Option<T>) | Error(message: Option<string>)

  /**
   * The authentication body. Every field is nullable because the same shape
   * decodes both success bodies and error bodies.
   */
  datatype AuthResponse = AuthResponse(
    userId: Option<Long>,
    token: Option<string>,
    refreshToken: Option<string>,
    email: Option<string>,
    name: Option<string>,
    mobileNumber: Option<string>,
    message: Option<string>)

  datatype LoginRequest = LoginRequest(email: string, password: string)

  datatype RegisterRequest = RegisterRequest(name: string, email: string, mobileNumber: string, password: string)

  /** One entry of a category-keyed breakdown map, in the map's iteration order. */
  datatype Entry = Entry(key: string, value: real)

  /** The part of the net-worth body that the model's screen rules read. */
  datatype NetWorthResponse = NetWorthResponse(
    netWorth: real,
    outstandingTaxLiability: real,
    assetBreakdown: seq<Entry>,
    liabilityBreakdown: seq<Entry>)

  datatype NextBestAction = NextBestAction(title: string, description: string, urgency: string)

  /** The part of the portfolio body that the model's screen rules read. */
  datatype PortfolioResponse = PortfolioResponse(
    score: int,
    assessment: string,
    nextBestAction: NextBestAction,
    sectorAllocation: seq<Entry>)

  /**
   * What `response.errorBody()?.string()` gives: no error body, its text, or an
   * exception while reading it (with the exception's nullable message).
   */
  datatype ErrorBody = NoErrorBody | ErrorText(text: string) | ErrorUnreadable(cause: Option<string>)

  /**
   * The outcome of one suspending Retrofit call: either the call threw (with the
   * exception's nullable message), or a response arrived with its 2xx flag, its
   * decoded body, its error body and its reason phrase (`response.message()`).
   */
  datatype HttpOutcome<T> =
    | Threw(cause: Option<string>)
    | Responded(isSuccessful: bool, body: Option<T>, errorBody: ErrorBody, reasonPhrase: Option<string>)

  /**
   * Decoding an error body as an `AuthResponse`: either decoding (or reading the
   * decoded object) throws, or it yields the body's nullable `message` field.
   */
  datatype ErrorDecoding = DecodeFailed | Decoded(message: Option<string>)

  /** The call delivered a 2xx response with a non-null body. */
  predicate Delivered<T>(o: HttpOutcome<T>) {
    o.Responded? && o.isSuccessful && o.body.Some?
  }
}
