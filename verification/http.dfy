/** The shape of the REST calls the pages send, with paths relative to the API base URL. */
module Http {
  import opened Wrappers

  datatype Verb = GET | POST | PUT | DELETE

  /** A call with its JSON body, if any, of payload type `B`. */
  datatype Request<B> = Request(verb: Verb, path: string, body: Option<B>)
}
