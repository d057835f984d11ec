/**
 * The read-only view of an HTTP request that the key builder consumes:
 * the fields of the nuster transaction (`txn->req`), the stream's
 * classified method, the header finder and the HTX body blocks.
 */
module HttpView {
  import opened Wrappers
  import opened Bytes

  /** HAProxy's `enum http_meth_t`. */
  datatype HttpMeth = OPTIONS | GET | HEAD | POST | PUT | DELETE | TRACE | CONNECT | OTHER

  /** Methods that have an entry in the token table `http_known_methods`. */
  type KnownMeth = m: HttpMeth | m != OTHER witness GET

  /** The canonical upper-case token of a known method. */
  function MethodToken(m: KnownMeth): (t: seq<byte>)
    ensures 0 < |t|
    ensures forall i | 0 <= i < |t| :: IsUpperAscii(t[i])
  {
    match m
    case OPTIONS => UpperAscii("OPTIONS")
    case GET => UpperAscii("GET")
    case HEAD => UpperAscii("HEAD")
    case POST => UpperAscii("POST")
    case PUT => UpperAscii("PUT")
    case DELETE => UpperAscii("DELETE")
    case TRACE => UpperAscii("TRACE")
    case CONNECT => UpperAscii("CONNECT")
  }

  /** Distinct methods have distinct tokens, so the Method segment tells them apart. */
  lemma MethodTokensDistinct(m1: KnownMeth, m2: KnownMeth)
    requires m1 != m2
    ensures MethodToken(m1) != MethodToken(m2)
  {
    var t1, t2 := MethodToken(m1), MethodToken(m2);
    if |t1| == |t2| {
      assert t1[0] != t2[0];
    }
  }

  /** `txn->req.scheme`: only SCH_HTTPS is distinguished by the key builder. */
  datatype RequestScheme = SchHttp | SchHttps

  /** HTX block types: only data blocks contribute to a body segment. */
  datatype BlockType = HtxBlkData | HtxBlkOther(tag: nat)

  datatype HtxBlock = HtxBlock(kind: BlockType, bytes: seq<byte>)

  /**
   * One request. `meth` is the transaction's own method (`s->txn->meth`),
   * `headers(name)` the values `http_find_header` yields for `name`, in
   * wire order, and `body` the blocks of the request channel's HTX buffer.
   */
  datatype Request = Request(
    meth: HttpMeth,
    scheme: RequestScheme,
    host: seq<byte>,
    uri: seq<byte>,
    path: seq<byte>,
    query: seq<byte>,
    cookie: seq<byte>,
    delimiter: bool,
    headers: seq<byte> -> seq<seq<byte>>,
    body: seq<HtxBlock>)

  /**
   * The string parsers the key builder calls: `findParam(query, name)`
   * (nst_http_find_param) and `extractCookie(cookie, name)`
   * (http_extract_cookie_value), each giving the first value found.
   */
  datatype Parsers = Parsers(
    findParam: (seq<byte>, seq<byte>) -> Option<seq<byte>>,
    extractCookie: (seq<byte>, seq<byte>) -> Option<seq<byte>>)
}
