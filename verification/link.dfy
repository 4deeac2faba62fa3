/** The typed link of `src/link.rs`: a server-supplied path that, when
    followed, is fetched at the host root without the API prefix. The type
    parameter records what the path points at and carries no data. */
module Links {
  import opened Wrappers
  import opened Json
  import opened Requests

  datatype Link<T> = Link(link: string)

  /** The custom deserializer: the JSON value must be a string, which is
      stored verbatim. */
  function DeserializeLink<T>(j: Json): (r: Result<Link<T>, DecodeError>)
    ensures r.Ok? <==> j.Str?
    ensures r.Ok? ==> r.value.link == j.s
  {
    match j
    case Str(s) => Ok(Link(s))
    case _ => Err(InvalidType)
  }

  /** Every link is the decoding of the JSON string holding its path, and
      of nothing else. */
  lemma DeserializeLinkExactly<T>(l: Link<T>, j: Json)
    ensures DeserializeLink<T>(j) == Ok(l) <==> j == Str(l.link)
  {
  }

  /** The request `follow` builds: default base URL, an empty API prefix,
      the stored path as endpoint and no query pairs. */
  function FollowRequest<T>(l: Link<T>): (r: Request)
    ensures r.baseUrl == BASE_URL && r.api == "" && r.endpoint == l.link && r.params == []
    ensures Target(r) == Plain("https://statsapi.mlb.com/" + l.link)
  {
    WithEndpoint(WithApi(New(), ""), l.link)
  }

  /** `follow`: fetches the stored path at the host root. */
  function Follow<T>(l: Link<T>, transport: Address -> Result<T, FetchError>): (r: Result<T, FetchError>)
    ensures r == transport(Plain("https://statsapi.mlb.com/" + l.link))
  {
    Get(FollowRequest(l), transport)
  }

  /** Following two links requests the same address only when their paths
      are equal. */
  lemma FollowAddressInjective<T>(l1: Link<T>, l2: Link<T>)
    requires Target(FollowRequest(l1)) == Target(FollowRequest(l2))
    ensures l1 == l2
  {
    var p := "https://statsapi.mlb.com/";
    assert (p + l1.link)[|p|..] == l1.link;
    assert (p + l2.link)[|p|..] == l2.link;
  }
}
