/**
 * `nst_key_build`: the element loop over the rule, the header and body
 * loops, and the final copy into the key, proved against `KeySpec.Build`.
 */
module KeyBuild {
  import opened Wrappers
  import opened Bytes
  import opened HttpView
  import opened KeySpec
  import opened KeyBuffer

  /** The header loop: `catist` each value until one fails. */
  method CatHeaders(buf: Buffer, values: seq<seq<byte>>, oom: Alloc, n: nat) returns (n': nat)
    modifies buf
    ensures Acc(buf.data, n') == HeaderLoop(values, buf.delim, oom, Acc(old(buf.data), n))
  {
    ghost var goal := HeaderLoop(values, buf.delim, oom, Acc(buf.data, n));
    n' := n;
    var j := 0;
    while j < |values|
      invariant 0 <= j <= |values|
      invariant HeaderLoop(values[j..], buf.delim, oom, Acc(buf.data, n')) == goal
    {
      assert values[j..][0] == values[j] && values[j..][1..] == values[j + 1..];
      ghost var t := Append(Acc(buf.data, n'), values[j] + [buf.delim], oom);
      var ret := buf.CatIst(values[j], oom(n'));
      n' := n' + 1;
      assert t.acc == Acc(buf.data, n');
      if ret == NstErr {
        break;
      }
      j := j + 1;
    }
  }

  /** The body loop: `cat` each data block, skipping other blocks, until one fails. */
  method CatBody(buf: Buffer, blocks: seq<HtxBlock>, oom: Alloc, n: nat) returns (n': nat)
    modifies buf
    ensures Acc(buf.data, n') == BodyLoop(blocks, oom, Acc(old(buf.data), n))
  {
    ghost var goal := BodyLoop(blocks, oom, Acc(buf.data, n));
    n' := n;
    var pos := 0;
    while pos < |blocks|
      invariant 0 <= pos <= |blocks|
      invariant BodyLoop(blocks[pos..], oom, Acc(buf.data, n')) == goal
    {
      assert blocks[pos..][0] == blocks[pos] && blocks[pos..][1..] == blocks[pos + 1..];
      if blocks[pos].kind != HtxBlkData {
        pos := pos + 1;
        continue;
      }
      var ret := buf.Cat(blocks[pos].bytes, oom(n'));
      n' := n' + 1;
      if ret != NstOk {
        break;
      }
      pos := pos + 1;
    }
  }

  /** `if(v.len) catist(v) else catdel()`. */
  method CatValueOrAbsent(buf: Buffer, v: seq<byte>, oom: Alloc, n: nat) returns (ret: Status)
    modifies buf
    ensures ret == NstOk <==> !oom(n)
    ensures buf.data == if ret == NstOk then old(buf.data) + ValueOrAbsent(v, buf.delim) else old(buf.data)
  {
    if |v| > 0 {
      ret := buf.CatIst(v, oom(n));
      assert old(buf.data) + v + [buf.delim] == old(buf.data) + (v + [buf.delim]);
    } else {
      ret := buf.CatDel(oom(n));
    }
  }

  /** A parameter or cookie arm: `catist` of the value found in a non-empty `src`, else `catdel`. */
  method CatLookup(buf: Buffer, src: seq<byte>, find: (seq<byte>, seq<byte>) -> Option<seq<byte>>,
                   name: seq<byte>, oom: Alloc, n: nat) returns (ret: Status)
    modifies buf
    ensures ret == NstOk <==> !oom(n)
    ensures buf.data == if ret == NstOk then old(buf.data) + Lookup(src, find, name, buf.delim) else old(buf.data)
  {
    if |src| > 0 {
      var v := find(src, name);
      if v.Some? {
        ret := buf.CatIst(v.value, oom(n));
        assert old(buf.data) + v.value + [buf.delim] == old(buf.data) + (v.value + [buf.delim]);
        return;
      }
    }
    ret := buf.CatDel(oom(n));
  }

  /** Whether `ret` and the buffer after an arm agree with the arm's specification `r`. */
  ghost predicate ArmDone(r: Option<Acc>, ret: Status, data: seq<byte>, n': nat) {
    (ret == NstOk <==> r.Some?) && (r.Some? ==> r.value == Acc(data, n'))
  }

  /** The arms that make a single append: request fields and lookups. */
  method CatField(buf: Buffer, e: KeyElement, inp: Input, oom: Alloc, n: nat)
      returns (ret: Status, n': nat)
    requires !e.Header? && !e.Body? && !e.Unsupported?
    modifies buf
    ensures ArmDone(ElementStep(e, inp, buf.delim, oom, Acc(old(buf.data), n)), ret, buf.data, n')
  {
    var req := inp.req;
    n' := n + 1;
    match e
    case Method =>
      ret := buf.CatIst(MethodToken(inp.meth), oom(n));
    case Scheme =>
      var scheme := if req.scheme == SchHttps then UpperAscii("HTTPS") else UpperAscii("HTTP");
      ret := buf.CatIst(scheme, oom(n));
    case Host =>
      ret := CatValueOrAbsent(buf, req.host, oom, n);
    case Uri =>
      ret := CatValueOrAbsent(buf, req.uri, oom, n);
    case Path =>
      ret := CatValueOrAbsent(buf, req.path, oom, n);
    case Delimiter =>
      if req.delimiter {
        ret := buf.CatIst(Ascii("?"), oom(n));
      } else {
        ret := buf.CatDel(oom(n));
      }
    case Query =>
      ret := CatValueOrAbsent(buf, req.query, oom, n);
    case Param(name) =>
      ret := CatLookup(buf, req.query, inp.parsers.findParam, name, oom, n);
    case Cookie(name) =>
      ret := CatLookup(buf, req.cookie, inp.parsers.extractCookie, name, oom, n);
  }

  /** The header arm: every occurrence, then one `catdel` whose status is the arm's. */
  method CatHeader(buf: Buffer, name: seq<byte>, inp: Input, oom: Alloc, n: nat)
      returns (ret: Status, n': nat)
    modifies buf
    ensures ArmDone(ElementStep(Header(name), inp, buf.delim, oom, Acc(old(buf.data), n)), ret, buf.data, n')
  {
    var m := CatHeaders(buf, inp.req.headers(name), oom, n);
    ret := buf.CatDel(oom(m));
    n' := m + 1;
  }

  /** The body arm: data blocks for POST and PUT only, then one `catdel` whose status is the arm's. */
  method CatBodyElement(buf: Buffer, inp: Input, oom: Alloc, n: nat)
      returns (ret: Status, n': nat)
    modifies buf
    ensures ArmDone(ElementStep(Body, inp, buf.delim, oom, Acc(old(buf.data), n)), ret, buf.data, n')
  {
    var m := n;
    if inp.req.meth == POST || inp.req.meth == PUT {
      m := CatBody(buf, inp.req.body, oom, n);
    }
    ret := buf.CatDel(oom(m));
    n' := m + 1;
  }

  /** The element `switch`; `ret` is the element's status. */
  method CatElement(buf: Buffer, e: KeyElement, inp: Input, oom: Alloc, n: nat)
      returns (ret: Status, n': nat)
    modifies buf
    ensures ArmDone(ElementStep(e, inp, buf.delim, oom, Acc(old(buf.data), n)), ret, buf.data, n')
    ensures e.Unsupported? ==> buf.data == old(buf.data) && n' == n
  {
    match e
    case Header(name) =>
      ret, n' := CatHeader(buf, name, inp, oom, n);
    case Body =>
      ret, n' := CatBodyElement(buf, inp, oom, n);
    case Unsupported(_) =>
      ret, n' := NstErr, n;
    case _ =>
      ret, n' := CatField(buf, e, inp, oom, n);
  }

  /**
   * `nst_key_build`: on NST_OK the key holds exactly the accumulated bytes;
   * an element failure returns NST_ERR without touching the key; a failed
   * final allocation returns NST_ERR after `key->size` has been written.
   */
  method NstKeyBuild(rule: seq<KeyElement>, inp: Input, d: byte, oom: Alloc, key: Key)
      returns (ret: Status)
    modifies key
    ensures ret == NstOk <==> Build(rule, inp, d, oom).Built?
    ensures Build(rule, inp, d, oom).Built? ==>
      key.size == |Build(rule, inp, d, oom).key| && key.data == Some(Build(rule, inp, d, oom).key)
    ensures Build(rule, inp, d, oom).ElementError? ==> unchanged(key)
    ensures Build(rule, inp, d, oom).AllocError? ==>
      key.size == Build(rule, inp, d, oom).size && key.data == None
  {
    var buf := new Buffer(d);
    var n: nat := 0;
    var i := 0;
    while i < |rule|
      invariant 0 <= i <= |rule|
      invariant fresh(buf) && buf.delim == d
      invariant Accumulate(rule[i..], inp, d, oom, Acc(buf.data, n))
                == Accumulate(rule, inp, d, oom, Acc([], 0))
      invariant unchanged(key)
    {
      assert rule[i..][0] == rule[i] && rule[i..][1..] == rule[i + 1..];
      ret, n := CatElement(buf, rule[i], inp, oom, n);
      if ret != NstOk {
        return NstErr;
      }
      i := i + 1;
    }
    key.size := |buf.data|;
    if oom(n) {
      key.data := None;
      return NstErr;
    }
    key.data := Some(buf.data);
    ret := NstOk;
  }
}
