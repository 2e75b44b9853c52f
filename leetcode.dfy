/**
 * The LeetCode client: the difficulty enumeration, the random fallback, the
 * GraphQL request it builds and the outcome of one call. JSON encoding,
 * http.NewRequest, the HTTP transport and JSON decoding are outside the
 * model; each enters as the success or failure it reports.
 */
module LeetCode {
  import opened Results
  import Ascii

  /** The three difficulties LeetCode accepts as a filter. */
  datatype Difficulty = Easy | Medium | Hard

  /** The string constant behind each member of the enumeration. */
  function Label(d: Difficulty): (s: string)
    ensures Ascii.IsUpperWord(s)
  {
    match d
    case Easy => "EASY"
    case Medium => "MEDIUM"
    case Hard => "HARD"
  }

  /** The three constants are pairwise distinct. */
  lemma LabelInjective(d: Difficulty, e: Difficulty)
    ensures Label(d) == Label(e) <==> d == e
  {
  }

  /**
   * RandomDifficulty, with the value drawn by rand.IntN(3) passed in as n.
   * Draw n in 0..2 picks the n-th constant in declaration order; the
   * switch has a default arm, so every other integer yields EASY.
   */
  function RandomDifficulty(n: int): (d: Difficulty)
    ensures 0 <= n < 3 ==> Label(d) == ["EASY", "MEDIUM", "HARD"][n]
    ensures !(0 <= n < 3) ==> d == Easy
  {
    if n == 0 then Easy
    else if n == 1 then Medium
    else if n == 2 then Hard
    else Easy
  }

  /** The draw of rand.IntN(3) that selects each difficulty. */
  function DrawFor(d: Difficulty): (n: nat)
    ensures n < 3 && RandomDifficulty(n) == d
  {
    match d
    case Easy => 0
    case Medium => 1
    case Hard => 2
  }

  /**
   * Over the draws rand.IntN(3) can return, each difficulty is chosen by
   * exactly one of them, so the choice is uniform.
   */
  lemma RandomDifficultyUniform(d: Difficulty)
    ensures (set n | 0 <= n < 3 && RandomDifficulty(n) == d) == {DrawFor(d)}
    ensures |set n | 0 <= n < 3 && RandomDifficulty(n) == d| == 1
  {
  }

  /** The GraphQL document sent on every call. */
  const RandomQuestionQuery: string :=
    "\nquery randomQuestion($categorySlug: String, $filters: QuestionListFilterInput) {\n    randomQuestion(categorySlug: $categorySlug, filters: $filters) {\n        titleSlug\n    }\n}"

  const GraphqlUrl: string := "https://leetcode.com/graphql"

  const SiteOrigin: string := "https://leetcode.com"

  datatype RandomQuestionFilters = RandomQuestionFilters(difficulty: Difficulty, tags: seq<string>)

  datatype RandomQuestionVariables = RandomQuestionVariables(categorySlug: string, filters: RandomQuestionFilters)

  datatype RandomQuestionRequest = RandomQuestionRequest(query: string, variables: RandomQuestionVariables)

  /** The JSON keys the encoder writes for the filters: `tags` is omitempty. */
  function FilterKeys(f: RandomQuestionFilters): (keys: seq<string>)
    ensures "difficulty" in keys
    ensures "tags" in keys <==> f.tags != []
  {
    ["difficulty"] + (if f.tags == [] then [] else ["tags"])
  }

  /**
   * The request body RandomQuestion builds for a difficulty: the fixed query
   * and the difficulty as its only filter; categorySlug is the empty string
   * and tags are left out of the JSON.
   */
  function RequestBody(d: Difficulty): (r: RandomQuestionRequest)
    ensures r.query == RandomQuestionQuery
    ensures r.variables.filters.difficulty == d
    ensures r.variables.categorySlug == ""
    ensures FilterKeys(r.variables.filters) == ["difficulty"]
  {
    RandomQuestionRequest(
      RandomQuestionQuery,
      RandomQuestionVariables("", RandomQuestionFilters(d, [])))
  }

  /** An outbound HTTP request; the body is kept as the record JSON encodes. */
  datatype HttpRequest = HttpRequest(
    verb: string,
    url: string,
    header: map<string, string>,
    body: RandomQuestionRequest)

  /** The request RandomQuestion sends for a difficulty. */
  function QuestionRequest(d: Difficulty): (r: HttpRequest)
    ensures r.verb == "POST"
    ensures r.url == GraphqlUrl && SiteOrigin <= r.url
    ensures r.header.Keys == {"Content-Type", "Origin", "Referer"}
    ensures r.header["Content-Type"] == "application/json"
    ensures r.header["Origin"] == SiteOrigin && r.header["Referer"] == SiteOrigin
    ensures r.body.variables.filters.difficulty == d
  {
    HttpRequest(
      "POST",
      GraphqlUrl,
      map["Content-Type" := "application/json", "Origin" := SiteOrigin, "Referer" := SiteOrigin],
      RequestBody(d))
  }

  /** Requests for different difficulties differ. */
  lemma QuestionRequestInjective(d: Difficulty, e: Difficulty)
    ensures QuestionRequest(d) == QuestionRequest(e) <==> d == e
  {
  }

  datatype QuestionRef = QuestionRef(titleSlug: string)

  datatype ResponseData = ResponseData(randomQuestion: QuestionRef)

  /** The decoded answer: data.randomQuestion.titleSlug. */
  datatype RandomQuestionResponse = RandomQuestionResponse(data: ResponseData)

  /** The zero value RandomQuestion returns beside an error. */
  const ZeroResponse: RandomQuestionResponse := RandomQuestionResponse(ResponseData(QuestionRef("")))

  function TitleSlug(r: RandomQuestionResponse): string
  {
    r.data.randomQuestion.titleSlug
  }

  /**
   * What the libraries and the network report for one call: whether the
   * request body encodes, whether http.NewRequest succeeds, whether
   * Client.Do returns a response (its 15-second timeout included), and what
   * decoding the response body yields.
   */
  datatype Upstream = Upstream(
    encodes: bool,
    builds: bool,
    delivers: bool,
    decoded: Option<RandomQuestionResponse>)

  datatype FetchError = EncodeFailed | BuildFailed | TransportFailed | DecodeFailed

  /**
   * The outcome of one RandomQuestion call: the HTTP request that went out
   * (if one was built), and Go's (response, error) pair.
   */
  datatype Exchange = Exchange(
    sent: Option<HttpRequest>,
    response: RandomQuestionResponse,
    err: Option<FetchError>)

  /** RandomQuestion: encode, build, send, decode, stopping at the first failure. */
  function RandomQuestion(d: Difficulty, up: Upstream): (x: Exchange)
    ensures x.sent.Some? <==> up.encodes && up.builds
    ensures x.sent.Some? ==> x.sent.value == QuestionRequest(d)
    ensures x.err.None? <==> up.encodes && up.builds && up.delivers && up.decoded.Some?
    ensures x.err.Some? ==> x.response == ZeroResponse
    ensures x.err.None? ==> x.response == up.decoded.value
  {
    if !up.encodes then Exchange(None, ZeroResponse, Some(EncodeFailed))
    else if !up.builds then Exchange(None, ZeroResponse, Some(BuildFailed))
    else if !up.delivers then Exchange(Some(QuestionRequest(d)), ZeroResponse, Some(TransportFailed))
    else match up.decoded
      case None => Exchange(Some(QuestionRequest(d)), ZeroResponse, Some(DecodeFailed))
      case Some(resp) => Exchange(Some(QuestionRequest(d)), resp, None)
  }

  /** The error names the first step that failed. */
  lemma RandomQuestionFirstFailure(d: Difficulty, up: Upstream)
    ensures RandomQuestion(d, up).err == Some(EncodeFailed) <==> !up.encodes
    ensures RandomQuestion(d, up).err == Some(BuildFailed) <==> up.encodes && !up.builds
    ensures RandomQuestion(d, up).err == Some(TransportFailed) <==> up.encodes && up.builds && !up.delivers
    ensures RandomQuestion(d, up).err == Some(DecodeFailed) <==> up.encodes && up.builds && up.delivers && up.decoded.None?
  {
  }

  /** A decoded slug comes back as it is, the empty slug included. */
  lemma RandomQuestionKeepsSlug(d: Difficulty, slug: string)
    ensures TitleSlug(RandomQuestion(d, Upstream(true, true, true, Some(RandomQuestionResponse(ResponseData(QuestionRef(slug)))))).response) == slug
  {
  }
}
