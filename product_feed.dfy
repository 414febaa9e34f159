/** The build-time product fetch: which outcome of the request yields which
    page props. The request itself is not modelled, only its outcome. */
module ProductFeed {
  import opened Booking

  /** How a parse of the response body as JSON ended. */
  datatype BodyOutcome = Parsed(products: seq<Product>) | ParseFailed(reason: string)

  /** How the request ended: a response with a status and a body, or an exception. */
  datatype FetchOutcome =
    | Response(status: int, statusText: string, body: BodyOutcome)
    | Thrown(error: string)

  /** The page props and the regeneration interval, in seconds. */
  datatype StaticProps = StaticProps(products: seq<Product>, revalidate: nat)

  const RevalidateSeconds: nat := 10

  /** The response's `ok` flag: a status in the range 200 to 299, as the
      Fetch standard defines it. */
  predicate IsOk(status: int)
  {
    200 <= status <= 299
  }

  /** The result of the static-props step for one fetch outcome. A failed JSON
      parse throws inside the `try` and lands in the `catch`, like a network
      error. */
  function GetStaticProps(outcome: FetchOutcome): (r: StaticProps)
    ensures r.revalidate == RevalidateSeconds
    ensures outcome.Response? && IsOk(outcome.status) && outcome.body.Parsed? ==>
              r.products == outcome.body.products
    ensures outcome.Thrown? ==> r.products == []
    ensures outcome.Response? && !IsOk(outcome.status) ==> r.products == []
    ensures outcome.Response? && outcome.body.ParseFailed? ==> r.products == []
    ensures r.products != [] ==>
              outcome.Response? && IsOk(outcome.status) && outcome.body.Parsed?
  {
    match outcome
    case Thrown(_) => StaticProps([], RevalidateSeconds)
    case Response(status, _, body) =>
      if IsOk(status) then
        match body
        case Parsed(products) => StaticProps(products, RevalidateSeconds)
        case ParseFailed(_) => StaticProps([], RevalidateSeconds)
      else
        StaticProps([], RevalidateSeconds)
  }

  /** A server error such as status 500 gives the empty catalog, whatever the body. */
  lemma ServerErrorGivesEmptyCatalog(statusText: string, body: BodyOutcome)
    ensures GetStaticProps(Response(500, statusText, body)) == StaticProps([], 10)
  {
  }
}
