/**
 * The semantics of `nst_key_build` as functions.
 *
 * A key is built by folding the rule's key elements, in order, into a
 * growing byte buffer. Every call of an append helper (`nst_key_catist`,
 * `nst_key_catdel`, `nst_key_cat`) and the final `malloc` is one
 * allocation attempt; the oracle `oom` says which attempts fail.
 *
 * The second half of the module is a reference definition that does not
 * mention allocation at all: the list of field values a rule picks out of
 * a request, and the key as those values each closed by the delimiter.
 */
module KeySpec {
  import opened Wrappers
  import opened Bytes
  import opened HttpView

  /** `struct nst_key_element`: the element's type tag with its name. */
  datatype KeyElement =
    | Method
    | Scheme
    | Host
    | Uri
    | Path
    | Delimiter
    | Query
    | Param(name: seq<byte>)
    | Header(name: seq<byte>)
    | Cookie(name: seq<byte>)
    | Body
    | Unsupported(tag: nat)  // any other tag value (the `default:` branch)

  /** The arguments of `nst_key_build` other than the rule and the key. */
  datatype Input = Input(req: Request, parsers: Parsers, meth: KnownMeth)

  /** `oom(i)` holds when allocation attempt number `i` fails. */
  type Alloc = nat -> bool

  /** The allocator that never fails. */
  function NoFailure(): Alloc {
    (_: nat) => false
  }

  /** The scratch buffer's contents and the number of allocation attempts so far. */
  datatype Acc = Acc(buf: seq<byte>, attempts: nat)

  /** The result of one append helper call: its status and the new accumulator. */
  datatype Attempt = Attempt(ok: bool, acc: Acc)

  /**
   * One append helper call: it appends `bytes` when its allocation succeeds
   * and leaves the buffer as it was when it fails.
   */
  function Append(a: Acc, bytes: seq<byte>, oom: Alloc): (t: Attempt)
    ensures t.acc.attempts == a.attempts + 1
    ensures t.ok <==> !oom(a.attempts)
    ensures t.acc.buf == if t.ok then a.buf + bytes else a.buf
  {
    if oom(a.attempts) then Attempt(false, Acc(a.buf, a.attempts + 1))
    else Attempt(true, Acc(a.buf + bytes, a.attempts + 1))
  }

  /** The element's status is that of the last helper call: NST_OK or NST_ERR. */
  function LastStatus(t: Attempt): Option<Acc> {
    if t.ok then Some(t.acc) else None
  }

  /** What `if(v.len) catist(v) else catdel()` appends. */
  function ValueOrAbsent(v: seq<byte>, d: byte): seq<byte> {
    if |v| > 0 then v + [d] else [d]
  }

  /** What a lookup in `src` appends: the found value, or only the delimiter. */
  function Lookup(src: seq<byte>, find: (seq<byte>, seq<byte>) -> Option<seq<byte>>,
                  name: seq<byte>, d: byte): seq<byte>
  {
    if |src| > 0 && find(src, name).Some? then find(src, name).value + [d] else [d]
  }

  function SchemeToken(s: RequestScheme): seq<byte> {
    if s == SchHttps then UpperAscii("HTTPS") else UpperAscii("HTTP")
  }

  function IsPostOrPut(m: HttpMeth): bool {
    m == POST || m == PUT
  }

  /**
   * The header loop: one `catist` per header value, stopping at the first
   * failed append. The loop's status is discarded by its caller.
   */
  function HeaderLoop(values: seq<seq<byte>>, d: byte, oom: Alloc, a: Acc): (r: Acc)
    ensures a.buf <= r.buf
    ensures a.attempts <= r.attempts <= a.attempts + |values|
    decreases |values|
  {
    if values == [] then a
    else
      var t := Append(a, values[0] + [d], oom);
      if !t.ok then t.acc else HeaderLoop(values[1..], d, oom, t.acc)
  }

  /**
   * The body loop: one `cat` per data block, skipping every other block type
   * and stopping at the first failed append.
   */
  function BodyLoop(blocks: seq<HtxBlock>, oom: Alloc, a: Acc): (r: Acc)
    ensures a.buf <= r.buf
    ensures a.attempts <= r.attempts <= a.attempts + |blocks|
    decreases |blocks|
  {
    if blocks == [] then a
    else if blocks[0].kind != HtxBlkData then BodyLoop(blocks[1..], oom, a)
    else
      var t := Append(a, blocks[0].bytes, oom);
      if !t.ok then t.acc else BodyLoop(blocks[1..], oom, t.acc)
  }

  /**
   * One arm of the `switch` in the element loop. `None` is NST_ERR. A
   * successful element has appended at least one byte after what was there.
   */
  function ElementStep(e: KeyElement, inp: Input, d: byte, oom: Alloc, a: Acc): (r: Option<Acc>)
    ensures r.Some? ==> a.buf <= r.value.buf && |a.buf| < |r.value.buf|
  {
    var req := inp.req;
    match e
    case Method => LastStatus(Append(a, MethodToken(inp.meth) + [d], oom))
    case Scheme => LastStatus(Append(a, SchemeToken(req.scheme) + [d], oom))
    case Host => LastStatus(Append(a, ValueOrAbsent(req.host, d), oom))
    case Uri => LastStatus(Append(a, ValueOrAbsent(req.uri, d), oom))
    case Path => LastStatus(Append(a, ValueOrAbsent(req.path, d), oom))
    case Delimiter =>
      LastStatus(Append(a, if req.delimiter then Ascii("?") + [d] else [d], oom))
    case Query => LastStatus(Append(a, ValueOrAbsent(req.query, d), oom))
    case Param(name) => LastStatus(Append(a, Lookup(req.query, inp.parsers.findParam, name, d), oom))
    case Header(name) => LastStatus(Append(HeaderLoop(req.headers(name), d, oom, a), [d], oom))
    case Cookie(name) =>
      LastStatus(Append(a, Lookup(req.cookie, inp.parsers.extractCookie, name, d), oom))
    case Body =>
      var b := if IsPostOrPut(req.meth) then BodyLoop(req.body, oom, a) else a;
      LastStatus(Append(b, [d], oom))
    case Unsupported(_) => None
  }

  /**
   * The element loop, strictly in rule order, returning at the first
   * element whose status is not NST_OK. A finished loop has appended at
   * least one byte per element.
   */
  function Accumulate(rule: seq<KeyElement>, inp: Input, d: byte, oom: Alloc, a: Acc): (r: Option<Acc>)
    ensures r.Some? ==> a.buf <= r.value.buf && |a.buf| + |rule| <= |r.value.buf|
    decreases |rule|
  {
    if rule == [] then Some(a)
    else
      match ElementStep(rule[0], inp, d, oom, a)
      case None => None
      case Some(b) => Accumulate(rule[1..], inp, d, oom, b)
  }

  /**
   * What `nst_key_build` returns and leaves in the key: the finished key
   * (NST_OK), an element failure (NST_ERR, key untouched) or a failed
   * final allocation (NST_ERR with `key->size` already written).
   */
  datatype Outcome = Built(key: seq<byte>) | ElementError | AllocError(size: nat)

  function Build(rule: seq<KeyElement>, inp: Input, d: byte, oom: Alloc): (o: Outcome)
    ensures o.Built? ==> |rule| <= |o.key|
    ensures o.AllocError? ==> |rule| <= o.size
  {
    match Accumulate(rule, inp, d, oom, Acc([], 0))
    case None => ElementError
    case Some(a) => if oom(a.attempts) then AllocError(|a.buf|) else Built(a.buf)
  }

  // ----- Reference definition: a key is a list of delimiter-closed fields -----

  /** Each field followed by the delimiter; an empty field is an absent segment. */
  function Join(fields: seq<seq<byte>>, d: byte): (k: seq<byte>)
    ensures |fields| <= |k|
    decreases |fields|
  {
    if fields == [] then [] else fields[0] + [d] + Join(fields[1..], d)
  }

  /** The bytes of the data blocks of a body, in stream order. */
  function DataBytes(blocks: seq<HtxBlock>): seq<byte>
    decreases |blocks|
  {
    if blocks == [] then []
    else (if blocks[0].kind == HtxBlkData then blocks[0].bytes else []) + DataBytes(blocks[1..])
  }

  function Found(src: seq<byte>, find: (seq<byte>, seq<byte>) -> Option<seq<byte>>,
                 name: seq<byte>): seq<byte>
  {
    if |src| > 0 && find(src, name).Some? then find(src, name).value else []
  }

  /**
   * The field values one element contributes: one field per element, except
   * a header, which gives one per occurrence and one empty field after
   * them. `None` for an unsupported tag.
   */
  function Fields(e: KeyElement, inp: Input): (r: Option<seq<seq<byte>>>)
    ensures r.None? <==> e.Unsupported?
    ensures r.Some? && !e.Header? ==> |r.value| == 1
    ensures e.Header? ==> r == Some(inp.req.headers(e.name) + [[]])
  {
    var req := inp.req;
    match e
    case Method => Some([MethodToken(inp.meth)])
    case Scheme => Some([SchemeToken(req.scheme)])
    case Host => Some([req.host])
    case Uri => Some([req.uri])
    case Path => Some([req.path])
    case Delimiter => Some([if req.delimiter then Ascii("?") else []])
    case Query => Some([req.query])
    case Param(name) => Some([Found(req.query, inp.parsers.findParam, name)])
    case Header(name) => Some(req.headers(name) + [[]])
    case Cookie(name) => Some([Found(req.cookie, inp.parsers.extractCookie, name)])
    case Body => Some([if IsPostOrPut(req.meth) then DataBytes(req.body) else []])
    case Unsupported(_) => None
  }

  /** The fields of a whole rule, in rule order; `None` if any tag is unsupported. */
  function AllFields(rule: seq<KeyElement>, inp: Input): (r: Option<seq<seq<byte>>>)
    ensures r.None? <==> exists i | 0 <= i < |rule| :: rule[i].Unsupported?
    ensures r.Some? ==> |rule| <= |r.value|
    decreases |rule|
  {
    if rule == [] then Some([])
    else match (Fields(rule[0], inp), AllFields(rule[1..], inp))
      case (Some(f), Some(g)) => Some(f + g)
      case _ => None
  }

  /** The key a rule gives for a request when no allocation fails. */
  function Key(rule: seq<KeyElement>, inp: Input, d: byte): Option<seq<byte>> {
    match AllFields(rule, inp)
    case None => None
    case Some(fs) => Some(Join(fs, d))
  }

  // ----- Reading a key back into its fields -----

  /** The position of the first `d` in `s`, or `|s|` if there is none. */
  function IndexOf(s: seq<byte>, d: byte): (i: nat)
    ensures i <= |s|
    ensures i < |s| ==> s[i] == d
    ensures forall j | 0 <= j < i :: s[j] != d
    decreases |s|
  {
    if s == [] then 0 else if s[0] == d then 0 else 1 + IndexOf(s[1..], d)
  }

  /** Splits a key at every delimiter; an unterminated tail is a last field. */
  function Split(k: seq<byte>, d: byte): seq<seq<byte>>
    decreases |k|
  {
    if k == [] then []
    else
      var i := IndexOf(k, d);
      if i == |k| then [k] else [k[..i]] + Split(k[i + 1..], d)
  }
}
