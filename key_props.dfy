/**
 * Properties of the key builder: agreement with the reference definition
 * when no allocation fails, reading a key back into its fields, the
 * per-element rules, rule order and fail-fast, and the limits of the
 * format (values are not escaped; the debug trace hides segment ends).
 */
module KeyProps {
  import opened Wrappers
  import opened Bytes
  import opened HttpView
  import opened KeySpec
  import KeyDebug

  // ----- Joining fields -----

  lemma {:induction false} JoinAppend(f: seq<seq<byte>>, g: seq<seq<byte>>, d: byte)
    ensures Join(f + g, d) == Join(f, d) + Join(g, d)
    decreases |f|
  {
    if f == [] {
      assert f + g == g;
    } else {
      assert (f + g)[1..] == f[1..] + g;
      JoinAppend(f[1..], g, d);
    }
  }

  /** A header's fields end in one empty field, which is one lone delimiter. */
  lemma HeaderJoin(values: seq<seq<byte>>, d: byte)
    ensures Join(values + [[]], d) == Join(values, d) + [d]
  {
    JoinAppend(values, [[]], d);
    assert Join([[]], d) == [d];
  }

  // ----- No allocation fails: the builder computes the reference key -----

  lemma {:induction false} HeaderLoopNoFailure(values: seq<seq<byte>>, d: byte, a: Acc)
    ensures HeaderLoop(values, d, NoFailure(), a).buf == a.buf + Join(values, d)
    decreases |values|
  {
    if values != [] {
      HeaderLoopNoFailure(values[1..], d, Acc(a.buf + (values[0] + [d]), a.attempts + 1));
    }
  }

  lemma {:induction false} BodyLoopNoFailure(blocks: seq<HtxBlock>, a: Acc)
    ensures BodyLoop(blocks, NoFailure(), a).buf == a.buf + DataBytes(blocks)
    decreases |blocks|
  {
    if blocks != [] {
      if blocks[0].kind != HtxBlkData {
        BodyLoopNoFailure(blocks[1..], a);
      } else {
        BodyLoopNoFailure(blocks[1..], Acc(a.buf + blocks[0].bytes, a.attempts + 1));
      }
    }
  }

  /** Each arm appends its fields, each closed by the delimiter. */
  lemma ElementStepNoFailure(e: KeyElement, inp: Input, d: byte, a: Acc)
    ensures ElementStep(e, inp, d, NoFailure(), a).Some? <==> Fields(e, inp).Some?
    ensures Fields(e, inp).Some? ==>
      ElementStep(e, inp, d, NoFailure(), a).value.buf == a.buf + Join(Fields(e, inp).value, d)
  {
    match e
    case Header(name) =>
      var values := inp.req.headers(name);
      HeaderLoopNoFailure(values, d, a);
      HeaderJoin(values, d);
    case Body =>
      if IsPostOrPut(inp.req.meth) {
        BodyLoopNoFailure(inp.req.body, a);
      }
    case _ =>
  }

  lemma {:induction false} AccumulateNoFailure(rule: seq<KeyElement>, inp: Input, d: byte, a: Acc)
    ensures Accumulate(rule, inp, d, NoFailure(), a).Some? <==> AllFields(rule, inp).Some?
    ensures AllFields(rule, inp).Some? ==>
      Accumulate(rule, inp, d, NoFailure(), a).value.buf == a.buf + Join(AllFields(rule, inp).value, d)
    decreases |rule|
  {
    if rule != [] {
      ElementStepNoFailure(rule[0], inp, d, a);
      var r := ElementStep(rule[0], inp, d, NoFailure(), a);
      var f, g := Fields(rule[0], inp), AllFields(rule[1..], inp);
      assert Accumulate(rule, inp, d, NoFailure(), a) ==
        if r.None? then None else Accumulate(rule[1..], inp, d, NoFailure(), r.value);
      assert AllFields(rule, inp) == if f.Some? && g.Some? then Some(f.value + g.value) else None;
      if r.Some? {
        AccumulateNoFailure(rule[1..], inp, d, r.value);
        if g.Some? {
          JoinStep(a.buf, r.value.buf, Accumulate(rule, inp, d, NoFailure(), a).value.buf,
                   f.value, g.value, d);
        }
      }
    }
  }

  lemma JoinStep(before: seq<byte>, middle: seq<byte>, after: seq<byte>,
                 f: seq<seq<byte>>, g: seq<seq<byte>>, d: byte)
    requires middle == before + Join(f, d) && after == middle + Join(g, d)
    ensures after == before + Join(f + g, d)
  {
    JoinAppend(f, g, d);
  }

  /**
   * With an allocator that never fails, the builder returns exactly the
   * reference key, and fails exactly when the rule has an unsupported tag.
   */
  lemma BuildNoFailure(rule: seq<KeyElement>, inp: Input, d: byte)
    ensures Build(rule, inp, d, NoFailure()) ==
      if Key(rule, inp, d).Some? then Built(Key(rule, inp, d).value) else ElementError
  {
    AccumulateNoFailure(rule, inp, d, Acc([], 0));
  }

  /** Requests that agree on every element's fields get the same key. */
  lemma {:induction false} FieldsDetermineKey(rule: seq<KeyElement>, i1: Input, i2: Input, d: byte)
    requires forall i | 0 <= i < |rule| :: Fields(rule[i], i1) == Fields(rule[i], i2)
    ensures Build(rule, i1, d, NoFailure()) == Build(rule, i2, d, NoFailure())
  {
    SameFieldsSameAll(rule, i1, i2);
    BuildNoFailure(rule, i1, d);
    BuildNoFailure(rule, i2, d);
  }

  lemma {:induction false} SameFieldsSameAll(rule: seq<KeyElement>, i1: Input, i2: Input)
    requires forall i | 0 <= i < |rule| :: Fields(rule[i], i1) == Fields(rule[i], i2)
    ensures AllFields(rule, i1) == AllFields(rule, i2)
    decreases |rule|
  {
    if rule != [] {
      assert Fields(rule[0], i1) == Fields(rule[0], i2);
      SameFieldsSameAll(rule[1..], i1, i2);
    }
  }

  // ----- Reading a key back -----

  /** No field contains the delimiter byte. */
  predicate DelimiterFree(fields: seq<seq<byte>>, d: byte) {
    forall i | 0 <= i < |fields| :: d !in fields[i]
  }

  lemma {:induction false} SplitJoin(fields: seq<seq<byte>>, d: byte)
    requires DelimiterFree(fields, d)
    ensures Split(Join(fields, d), d) == fields
    decreases |fields|
  {
    if fields != [] {
      var f := fields[0];
      var rest := Join(fields[1..], d);
      var k := Join(fields, d);
      assert k == f + [d] + rest;
      var i := IndexOf(k, d);
      assert forall j | 0 <= j < |f| :: k[j] == f[j];
      assert k[|f|] == d;
      assert i == |f|;
      assert k[..i] == f;
      assert k[i + 1..] == rest;
      SplitJoin(fields[1..], d);
    }
  }

  /**
   * A key whose values do not contain the delimiter splits back into
   * exactly the fields of the rule: one per element, a header's
   * occurrences in wire order and then one empty field.
   */
  lemma BuiltKeySplits(rule: seq<KeyElement>, inp: Input, d: byte)
    requires AllFields(rule, inp).Some? && DelimiterFree(AllFields(rule, inp).value, d)
    ensures Build(rule, inp, d, NoFailure()).Built?
    ensures Split(Build(rule, inp, d, NoFailure()).key, d) == AllFields(rule, inp).value
  {
    BuildNoFailure(rule, inp, d);
    SplitJoin(AllFields(rule, inp).value, d);
  }

  /**
   * A value containing the delimiter shifts segment boundaries: two
   * requests with different hosts and paths get the same key for the rule
   * [Host, Path], under every allocator.
   */
  lemma DelimiterInValueCollides(i1: Input, i2: Input, d: byte, oom: Alloc)
    requires i1.req.host == [97, d, 98] && i1.req.path == [99]
    requires i2.req.host == [97] && i2.req.path == [98, d, 99]
    ensures i1.req.host != i2.req.host
    ensures Build([Host, Path], i1, d, oom) == Build([Host, Path], i2, d, oom)
  {
    HostPathBuild(i1, d, oom);
    HostPathBuild(i2, d, oom);
    assert [97, d, 98] + [d] + ([99] + [d]) == [97] + [d] + ([98, d, 99] + [d]);
  }

  /** The rule [Host, Path]: two single appends, then the final allocation. */
  lemma HostPathBuild(inp: Input, d: byte, oom: Alloc)
    ensures Build([Host, Path], inp, d, oom) ==
      if oom(0) || oom(1) then ElementError
      else if oom(2) then AllocError(|inp.req.host| + |inp.req.path| + 2)
      else Built(inp.req.host + [d] + (inp.req.path + [d]))
  {
    var host, path := inp.req.host, inp.req.path;
    var a0 := Acc([], 0);
    SingleFieldArm(Host, inp, d, oom, a0);
    assert Fields(Host, inp) == Some([host]) && Fields(Path, inp) == Some([path]);
    assert [Host, Path][1..] == [Path] && [Path][1..] == [];
    var e := ElementStep(Host, inp, d, oom, a0);
    if !oom(0) {
      assert a0.buf + (host + [d]) == host + [d];
      assert e == Some(Acc(host + [d], 1));
      SingleFieldArm(Path, inp, d, oom, e.value);
    }
  }

  /**
   * Repeated headers: a Header element with N occurrences gives N value
   * segments in wire order and then one absent segment, for every N.
   */
  lemma HeaderKey(name: seq<byte>, inp: Input, d: byte)
    ensures Build([Header(name)], inp, d, NoFailure()) ==
      Built(Join(inp.req.headers(name), d) + [d])
  {
    var rule := [Header(name)];
    assert rule[1..] == [];
    assert AllFields(rule, inp) == Some(inp.req.headers(name) + [[]] + []);
    assert inp.req.headers(name) + [[]] + [] == inp.req.headers(name) + [[]];
    HeaderJoin(inp.req.headers(name), d);
    BuildNoFailure(rule, inp, d);
  }

  // ----- Per-element rules, under every allocator -----

  /**
   * Absence normalization: a request field or lookup result that is empty
   * appends the same lone delimiter as one that is missing, because every
   * single-append arm appends its one field followed by the delimiter.
   */
  lemma SingleFieldArm(e: KeyElement, inp: Input, d: byte, oom: Alloc, a: Acc)
    requires !e.Header? && !e.Body? && !e.Unsupported?
    ensures ElementStep(e, inp, d, oom, a) == LastStatus(Append(a, Fields(e, inp).value[0] + [d], oom))
  {
    var none: seq<byte> := [];
    assert none + [d] == [d];
  }

  /** The parameter and cookie arms append only the delimiter exactly when nothing non-empty was found. */
  lemma LookupAbsent(src: seq<byte>, find: (seq<byte>, seq<byte>) -> Option<seq<byte>>,
                     name: seq<byte>, d: byte)
    ensures Lookup(src, find, name, d) == [d] <==>
      |src| == 0 || find(src, name).None? || find(src, name).value == []
  {
  }

  /**
   * The Method arm uses the `method` argument and nothing of the request;
   * the Body arm uses the transaction's own method and not that argument.
   */
  lemma MethodSources(e: KeyElement, i1: Input, i2: Input, d: byte, oom: Alloc, a: Acc)
    requires e == Method || e == Body
    requires e == Method ==> i1.meth == i2.meth
    requires e == Body ==> i1.req == i2.req
    ensures ElementStep(e, i1, d, oom, a) == ElementStep(e, i2, d, oom, a)
  {
  }

  /**
   * Body scoping: outside POST and PUT the body arm appends only the
   * delimiter whatever the body holds; for POST and PUT it appends the data
   * blocks in order with nothing between them, then the delimiter.
   */
  lemma BodyArm(inp: Input, d: byte, oom: Alloc, a: Acc)
    ensures !IsPostOrPut(inp.req.meth) ==>
      ElementStep(Body, inp, d, oom, a) == LastStatus(Append(a, [d], oom))
    ensures IsPostOrPut(inp.req.meth) ==>
      ElementStep(Body, inp, d, NoFailure(), a).Some? &&
      ElementStep(Body, inp, d, NoFailure(), a).value.buf == a.buf + DataBytes(inp.req.body) + [d]
  {
    if IsPostOrPut(inp.req.meth) {
      BodyLoopNoFailure(inp.req.body, a);
    }
  }

  /**
   * The header arm's status is that of its trailing `catdel`: when the
   * first occurrence's append fails and the `catdel` succeeds, the element
   * succeeds with only the absent segment, dropping every occurrence.
   */
  lemma HeaderFailureSwallowed(name: seq<byte>, inp: Input, d: byte, oom: Alloc, a: Acc)
    requires |inp.req.headers(name)| > 0
    requires oom(a.attempts) && !oom(a.attempts + 1)
    ensures ElementStep(Header(name), inp, d, oom, a) == Some(Acc(a.buf + [d], a.attempts + 2))
  {
  }

  /** The same holds for the body arm of a POST or PUT whose first block is data. */
  lemma BodyFailureSwallowed(inp: Input, d: byte, oom: Alloc, a: Acc)
    requires IsPostOrPut(inp.req.meth)
    requires |inp.req.body| > 0 && inp.req.body[0].kind == HtxBlkData
    requires oom(a.attempts) && !oom(a.attempts + 1)
    ensures ElementStep(Body, inp, d, oom, a) == Some(Acc(a.buf + [d], a.attempts + 2))
  {
  }

  // ----- Rule order and fail-fast -----

  /** Elements are processed strictly in rule order: a rule is its prefix, then its suffix. */
  lemma {:induction false} AccumulateConcat(r1: seq<KeyElement>, r2: seq<KeyElement>,
                                            inp: Input, d: byte, oom: Alloc, a: Acc)
    ensures Accumulate(r1 + r2, inp, d, oom, a) ==
      match Accumulate(r1, inp, d, oom, a)
      case None => None
      case Some(b) => Accumulate(r2, inp, d, oom, b)
    decreases |r1|
  {
    if r1 == [] {
      assert r1 + r2 == r2;
    } else {
      assert (r1 + r2)[0] == r1[0] && (r1 + r2)[1..] == r1[1..] + r2;
      var s := ElementStep(r1[0], inp, d, oom, a);
      if s.Some? {
        AccumulateConcat(r1[1..], r2, inp, d, oom, s.value);
      }
    }
  }

  /**
   * Fail-fast: the build fails at the element stage exactly when some
   * element fails after all earlier ones have succeeded.
   */
  lemma FailsAtFirstFailedElement(rule: seq<KeyElement>, inp: Input, d: byte, oom: Alloc)
    ensures Build(rule, inp, d, oom).ElementError? <==>
      exists i | 0 <= i < |rule| ::
        Accumulate(rule[..i], inp, d, oom, Acc([], 0)).Some? &&
        ElementStep(rule[i], inp, d, oom, Accumulate(rule[..i], inp, d, oom, Acc([], 0)).value).None?
  {
    var a := Acc([], 0);
    if Build(rule, inp, d, oom).ElementError? {
      var i := FirstFailure(rule, inp, d, oom, a);
    } else {
      forall i | 0 <= i < |rule| && Accumulate(rule[..i], inp, d, oom, a).Some?
        ensures ElementStep(rule[i], inp, d, oom, Accumulate(rule[..i], inp, d, oom, a).value).Some?
      {
        var b := Accumulate(rule[..i], inp, d, oom, a).value;
        assert rule == rule[..i] + rule[i..];
        AccumulateConcat(rule[..i], rule[i..], inp, d, oom, a);
        assert rule[i..][0] == rule[i];
      }
    }
  }

  /** The first element whose arm fails, for a loop that failed. */
  lemma {:induction false} FirstFailure(rule: seq<KeyElement>, inp: Input, d: byte, oom: Alloc, a: Acc)
      returns (i: nat)
    requires Accumulate(rule, inp, d, oom, a).None?
    ensures i < |rule|
    ensures Accumulate(rule[..i], inp, d, oom, a).Some?
    ensures ElementStep(rule[i], inp, d, oom, Accumulate(rule[..i], inp, d, oom, a).value).None?
    decreases |rule|
  {
    assert rule[..0] == [];
    var s := ElementStep(rule[0], inp, d, oom, a);
    if s.None? {
      i := 0;
    } else {
      var j := FirstFailure(rule[1..], inp, d, oom, s.value);
      i := j + 1;
      var prefix := rule[..i];
      assert prefix[0] == rule[0] && prefix[1..] == rule[1..][..j];
      assert Accumulate(prefix, inp, d, oom, a) == Accumulate(rule[1..][..j], inp, d, oom, s.value);
      assert rule[i] == rule[1..][j];
    }
  }

  /** An unsupported tag anywhere in the rule makes the build fail, under every allocator. */
  lemma {:induction false} UnsupportedFails(rule: seq<KeyElement>, inp: Input, d: byte, oom: Alloc, a: Acc)
    requires exists i | 0 <= i < |rule| :: rule[i].Unsupported?
    ensures Accumulate(rule, inp, d, oom, a).None?
    decreases |rule|
  {
    var s := ElementStep(rule[0], inp, d, oom, a);
    if s.Some? {
      var i :| 0 <= i < |rule| && rule[i].Unsupported?;
      assert i != 0;
      assert rule[1..][i - 1] == rule[i];
      UnsupportedFails(rule[1..], inp, d, oom, s.value);
    }
  }

  // ----- The debug trace -----

  /** All the bytes of the fields, with nothing between them. */
  function Concat(fields: seq<seq<byte>>): seq<byte>
    decreases |fields|
  {
    if fields == [] then [] else fields[0] + Concat(fields[1..])
  }

  /**
   * With the zero byte as delimiter, the trace of a key whose values hold
   * no zero byte is its values run together: segment ends are invisible.
   */
  lemma {:induction false} TraceHidesBoundaries(fields: seq<seq<byte>>)
    requires DelimiterFree(fields, 0)
    ensures KeyDebug.WithoutNul(Join(fields, 0)) == Concat(fields)
    decreases |fields|
  {
    if fields != [] {
      var f, rest := fields[0], fields[1..];
      assert Join(fields, 0) == (f + [0]) + Join(rest, 0);
      KeyDebug.WithoutNulConcat(f + [0], Join(rest, 0));
      SegmentTrace(f);
      DelimiterFreeTail(fields, 0);
      TraceHidesBoundaries(rest);
    }
  }

  /** One segment's trace is its value. */
  lemma SegmentTrace(f: seq<byte>)
    requires 0 !in f
    ensures KeyDebug.WithoutNul(f + [0]) == f
  {
    KeyDebug.WithoutNulConcat(f, [0]);
    KeyDebug.WithoutNulIdentity(f);
    assert KeyDebug.WithoutNul([0]) == [];
  }

  lemma DelimiterFreeTail(fields: seq<seq<byte>>, d: byte)
    requires fields != [] && DelimiterFree(fields, d)
    ensures d !in fields[0] && DelimiterFree(fields[1..], d)
  {
  }
}
