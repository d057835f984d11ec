# nuster cache-key builder in Dafny

This project models how nuster derives a cache key from an HTTP request
(`nst_key_build` in `src/nuster/key.c`). It also models how the key is printed
for debugging (`nst_key_debug`).

A cache rule holds an ordered list of key elements: Method, Scheme, Host, Uri,
Path, Delimiter, Query, Param(name), Header(name), Cookie(name) and Body.
The builder walks that list and appends one segment per element to a scratch
buffer. A segment is the value followed by the delimiter byte, or the
delimiter alone when the value is absent. A Header element gives one segment
per occurrence, then one extra absent segment. When the list ends, the buffer
is copied into an exactly sized key. Any element whose status is not NST_OK
aborts the build.

Layout:

- `bytes.dfy`, `wrappers.dfy`: bytes, ASCII literals, `Option`.
- `http_view.dfy`: the request view the builder reads.
  - the method enum and its token table;
  - the scheme;
  - the host, uri, path, query and cookie fields, and the `delimiter` flag;
  - the header finder, as a function from a name to its values in wire order;
  - the HTX body blocks;
  - the query-parameter and cookie parsers, as function-typed inputs.
- `key_spec.dfy`: the builder as functions.
  - Each append helper call and the final `malloc` is one numbered
    allocation attempt.
  - An oracle `oom: nat -> bool` says which attempts fail.
  - `Build` gives one of three outcomes: the key, an element error, or a
    failed final allocation.
  - `Fields`, `AllFields` and `Key` form a reference definition with no
    allocation in it: the values a rule picks out of a request, each closed
    by the delimiter.
- `key_buffer.dfy`: the scratch buffer and the key struct, as classes.
  - The buffer has the three append helpers `Cat`, `CatIst` and `CatDel`.
  - The key has the `size` and `data` fields.
- `key_build.dfy`: `nst_key_build` as imperative code.
  - It is the element loop, the header and body loops, and the final copy.
  - It is proved to produce exactly `KeySpec.Build`.
- `key_debug.dfy`: `nst_key_debug` as a counting loop, proved equal to a
  zero-byte filter.
- `key_props.dfy`: the properties.
  - With no allocation failure, the builder computes the reference key.
  - A key splits back into its fields.
  - Each element follows its own rule.
  - Elements run in rule order, and the build stops at the first failure.
  - Two requests can collide on one key.
  - The debug trace hides segment boundaries.

### Append failures inside the header and body loops

Most append failures abort the build at once. The Header and Body elements
are the exception:

- A failed append inside the header loop or the body loop only ends that loop.
- The element's status then comes from the trailing `nst_key_catdel`. If that
  call succeeds, the element succeeds.
- The remaining header values or body bytes are silently dropped from the key.

The model follows the code. `KeyProps.HeaderFailureSwallowed` and
`KeyProps.BodyFailureSwallowed` show this.

### Assumptions about the helpers

The definitions of `nst_key_init`, `nst_key_cat`, `nst_key_catist` and
`nst_key_catdel` are not part of this model. The model assumes this about
them:

- Each helper call is one allocation attempt.
- A call that fails leaves the buffer as it was.
- A call that succeeds appends its bytes. For `catist` that is the value and
  then the delimiter.
- The delimiter byte's value is not fixed. It is the parameter `d` (the
  buffer's `delim`). Every property holds for every value of it, except
  `KeyProps.TraceHidesBoundaries` and `KeyProps.SegmentTrace`. Those two are
  about the debug trace and hold only when the delimiter is the zero byte.

## Model

| member | source | states |
|---|---|---|
| `HttpView.MethodToken` | src/nuster/key.c:41 | The token for a known method is non-empty and all upper-case ASCII. So the Method segment is canonical whatever the request's own casing was. |
| `HttpView.MethodTokensDistinct` | src/nuster/key.c:41 | Distinct known methods have distinct tokens, so the Method segment keeps, say, GET and HEAD keys apart. |
| `KeyBuffer.Buffer.constructor` | src/nuster/key.c:30 | `nst_key_init` gives an empty buffer with the fixed delimiter. |
| `KeyBuffer.Buffer.Cat` | src/nuster/key.c:179 | Appends the bytes with no delimiter. On a failed allocation it returns NST_ERR and leaves the buffer unchanged. |
| `KeyBuffer.Buffer.CatIst` | src/nuster/key.c:41 | Appends the value, then the delimiter. A failure returns NST_ERR and leaves the buffer unchanged. |
| `KeyBuffer.Buffer.CatDel` | src/nuster/key.c:59 | Appends only the delimiter (an absent segment). A failure returns NST_ERR and leaves the buffer unchanged. |
| `KeySpec.HeaderLoop` | src/nuster/key.c:132-138 | The header loop only extends the buffer (the old contents are a prefix). It makes at most one allocation attempt per occurrence. |
| `KeySpec.BodyLoop` | src/nuster/key.c:170-184 | The body loop only extends the buffer. It makes at most one allocation attempt per block. |
| `KeySpec.ElementStep` | src/nuster/key.c:37-192 | An element that returns NST_OK has kept the old buffer as a prefix and appended at least one byte. |
| `KeySpec.Accumulate` | src/nuster/key.c:34-197 | A completed element loop has appended at least one byte per element of the rule, after the old contents. |
| `KeySpec.Build` | src/nuster/key.c:24-211 | A built key is at least as long as the rule has elements. So is the size recorded when the final allocation fails. |
| `KeySpec.Fields` | src/nuster/key.c:37-192 | Only an unsupported tag has no fields. Every element other than Header and an unsupported tag gives exactly one field. A Header element gives its occurrences, then one empty field. |
| `KeySpec.AllFields` | src/nuster/key.c:34-197 | A rule has fields exactly when none of its tags is unsupported. It then has at least one field per element. |
| `KeyBuild.CatHeaders` | src/nuster/key.c:132-138 | The imperative header loop ends in the buffer and attempt count that `HeaderLoop` specifies. That includes stopping at the first failed `catist`. |
| `KeyBuild.CatBody` | src/nuster/key.c:170-184 | The imperative body loop skips blocks that are not data. It `cat`s each data block until one fails, exactly as `BodyLoop` specifies. |
| `KeyBuild.CatValueOrAbsent` | src/nuster/key.c:53-62 | A non-empty field is appended with `catist` and an empty one with `catdel`. The status is the allocator's verdict. |
| `KeyBuild.CatLookup` | src/nuster/key.c:103-120 | The value is looked up only in a non-empty query or cookie. A found value is appended with `catist`; otherwise only `catdel` is called. |
| `KeyBuild.CatField` | src/nuster/key.c:38-161 | The single-append arms (Method, Scheme, Host, Uri, Path, Delimiter, Query, Param, Cookie) agree with `ElementStep`, both in status and in the new buffer. |
| `KeyBuild.CatHeader` | src/nuster/key.c:121-142 | The Header arm agrees with `ElementStep`. Its status is that of the trailing `catdel`. |
| `KeyBuild.CatBodyElement` | src/nuster/key.c:162-188 | The Body arm agrees with `ElementStep`. Data blocks are appended only when the transaction method is POST or PUT, and the arm always ends with `catdel`. |
| `KeyBuild.CatElement` | src/nuster/key.c:37-192 | The `switch` agrees with `ElementStep`. An unsupported tag returns NST_ERR and leaves the buffer and the attempt count unchanged. |
| `KeyBuild.NstKeyBuild` | src/nuster/key.c:24-211 | Returns NST_OK exactly when `Build` gives a key; the key's size and data are then exactly the accumulated bytes. An element failure leaves the key untouched. A failed final allocation has already set the size and has no data. |
| `KeyDebug.WithoutNul` | src/nuster/key.c:218-224 | The filtered bytes contain no zero byte and are no longer than the key. |
| `KeyDebug.NstKeyDebug` | src/nuster/key.c:213-227 | In debug mode the output is the key without its zero bytes, followed by a newline. Otherwise nothing is written. |
| `KeyDebug.WithoutNulConcat` | src/nuster/key.c:218-224 | Filtering a concatenation gives the concatenation of the filtered parts. |
| `KeyDebug.WithoutNulMultiset` | src/nuster/key.c:218-224 | The trace keeps every non-zero byte of the key, as many times as the key holds it, and drops every zero byte. |
| `KeyDebug.WithoutNulIdentity` | src/nuster/key.c:218-224 | A key is traced unchanged if and only if it holds no zero byte. |
| `KeyProps.HeaderJoin` | src/nuster/key.c:141 | The extra empty field after a header's occurrences is one lone delimiter at the end. |
| `KeyProps.HeaderLoopNoFailure` | src/nuster/key.c:132-138 | With no failed allocation, the header loop appends every occurrence in wire order, each closed by the delimiter. |
| `KeyProps.BodyLoopNoFailure` | src/nuster/key.c:170-184 | With no failed allocation, the body loop appends the bytes of every data block in order, with nothing between them. |
| `KeyProps.ElementStepNoFailure` | src/nuster/key.c:37-192 | With no failed allocation, an element succeeds exactly when its tag is supported. It then appends its reference fields, each closed by the delimiter. |
| `KeyProps.AccumulateNoFailure` | src/nuster/key.c:34-197 | With no failed allocation, the element loop succeeds exactly when every tag is supported. It then appends the rule's fields, joined. |
| `KeyProps.BuildNoFailure` | src/nuster/key.c:24-211 | With an allocator that never fails, the built key is exactly the reference key. The only error left is an unsupported tag. |
| `KeyProps.FieldsDetermineKey` | src/nuster/key.c:34-210 | Two requests that agree on the fields of every element of the rule get byte-identical keys. |
| `KeyProps.BuiltKeySplits` | src/nuster/key.c:34-210 | If no value holds the delimiter, splitting the key at the delimiters gives back exactly the rule's fields, in rule order. |
| `KeyProps.DelimiterInValueCollides` | src/nuster/key.c:53-82 | Values are not escaped. A host `a<d>b` with path `c`, and a host `a` with path `b<d>c`, give the same key for [Host, Path] under every allocator. |
| `KeyProps.HostPathBuild` | src/nuster/key.c:53-82 | For the rule [Host, Path], the build fails at the element stage if either of the first two allocations fails. It fails at the final copy, with the size recorded, if the third fails. Otherwise it gives host, delimiter, path, delimiter. |
| `KeyProps.HeaderKey` | src/nuster/key.c:121-142 | A Header element with N occurrences gives N value segments in wire order and then one absent segment, for every N including 0. |
| `KeyProps.SingleFieldArm` | src/nuster/key.c:38-161 | Every single-append arm appends its field and then the delimiter. An empty field, a lookup that was not tried or not found, and a found empty value all give the same lone delimiter. The Scheme field is "HTTPS" only for SCH_HTTPS, and the Delimiter field is "?" only when the request's flag is set. |
| `KeyProps.LookupAbsent` | src/nuster/key.c:103-120 | A Param or Cookie element appends only the delimiter exactly when the source is empty, the name is not found, or the found value is empty. |
| `KeyProps.MethodSources` | src/nuster/key.c:38-188 | The Method arm depends only on the `method` argument. The Body arm depends only on the request, including its own transaction method. |
| `KeyProps.BodyArm` | src/nuster/key.c:162-188 | Outside POST and PUT, the Body arm appends only the delimiter, whatever the body holds. For POST and PUT with no failure, it always succeeds and appends the data blocks' bytes in order and then the delimiter. |
| `KeyProps.HeaderFailureSwallowed` | src/nuster/key.c:132-141 | When the first occurrence's `catist` fails and the trailing `catdel` succeeds, the Header element succeeds. It contributes only a lone delimiter. |
| `KeyProps.BodyFailureSwallowed` | src/nuster/key.c:179-187 | When the first data block's `cat` fails and the trailing `catdel` succeeds, the Body element succeeds. It contributes only a lone delimiter. |
| `KeyProps.AccumulateConcat` | src/nuster/key.c:34-197 | Elements run strictly in rule order. Building a rule means building its prefix and then continuing with the suffix, and a failed prefix fails the whole rule. |
| `KeyProps.FailsAtFirstFailedElement` | src/nuster/key.c:189-196 | The build ends with an element error exactly when some element fails after every earlier element has succeeded. |
| `KeyProps.UnsupportedFails` | src/nuster/key.c:189-191 | An unsupported tag anywhere in the rule makes the element loop fail, under every allocator. |
| `KeyProps.TraceHidesBoundaries` | src/nuster/key.c:213-227 | If the delimiter is the zero byte and no value holds one, the debug trace of a key is its values run together. Segment boundaries become invisible. |

## Left out

- Output goes nowhere. `nst_key_debug` writes to stderr, and `NstKeyDebug` returns the bytes it would write. The global `MODE_DEBUG` check is a boolean argument.
- The `nst_debug`/`nst_debug2` tracing calls are not modelled. They only produce diagnostic output.
- The append helpers and the delimiter value are not shown in the source, so they are specified through contracts. A failed append is assumed to leave the buffer unchanged. A real failed reallocation might leave it unusable.
- `nst_key_init` is assumed to succeed. Its result is not checked in the source.
- The scratch buffer is never freed in the model. The source does not free it on the paths shown, and in Dafny memory is not managed.
- The contents of `http_known_methods` are not in the source shown, so the model uses the standard method names. The table has no entry for `HTTP_METH_OTHER`, so the `method` argument ranges over the eight known methods (`KnownMeth`).
- `nst_http_find_param`, `http_extract_cookie_value` and `http_find_header` are not part of this model. They are function-typed inputs that return the value found, or the values in wire order. Case-insensitive header matching and the splitting of comma-separated values are left to them.
- HTX internals are not modelled. The body is a sequence of typed blocks, and each block's size is the length of its bytes.
- Element names are byte sequences, not NUL-terminated strings. The `strlen` of a name is its length.
- Lengths are unbounded integers. The `int` length of a parameter value and the `uint32_t` block sizes never overflow in the model.
- Rules shared across concurrent requests are not modelled. The builder reads them and never writes them.
- `KeyProps.FieldsDetermineKey` is stated only for an allocator that never fails. Under failures, the number of allocation attempts also depends on how the body is split into blocks, not only on its bytes.
