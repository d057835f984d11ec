/**
 * `nst_key_debug`: in debug mode, the key's bytes are written to stderr
 * with every zero byte dropped, followed by a newline.
 */
module KeyDebug {
  import opened Bytes
  import opened KeyBuffer

  /** The bytes of `s` that are not zero, in order. */
  function WithoutNul(s: seq<byte>): (r: seq<byte>)
    ensures |r| <= |s|
    ensures forall i | 0 <= i < |r| :: r[i] != 0
    decreases |s|
  {
    if s == [] then []
    else WithoutNul(s[..|s| - 1]) + (if s[|s| - 1] == 0 then [] else [s[|s| - 1]])
  }

  /** What is written for a key: nothing outside debug mode. */
  function Render(k: seq<byte>, debugMode: bool): seq<byte> {
    if debugMode then WithoutNul(k) + Ascii("\n") else []
  }

  /** The counting loop of `nst_key_debug` over `key->size` bytes of `key->data`. */
  method NstKeyDebug(key: Key, debugMode: bool) returns (out: seq<byte>)
    requires key.data.Some? && key.size == |key.data.value|
    ensures out == Render(key.data.value, debugMode)
  {
    out := [];
    if debugMode {
      var k := key.data.value;
      var i := 0;
      while i < key.size
        invariant 0 <= i <= key.size
        invariant out == WithoutNul(k[..i])
      {
        assert k[..i + 1][..i] == k[..i];
        var c := k[i];
        if c != 0 {
          out := out + [c];
        }
        i := i + 1;
      }
      assert k[..key.size] == k;
      out := out + Ascii("\n");
    }
  }

  /** Filtering distributes over concatenation. */
  lemma {:induction false} WithoutNulConcat(a: seq<byte>, b: seq<byte>)
    ensures WithoutNul(a + b) == WithoutNul(a) + WithoutNul(b)
    decreases |b|
  {
    if b == [] {
      assert a + b == a;
    } else {
      var b' := b[..|b| - 1];
      assert (a + b)[..|a + b| - 1] == a + b';
      WithoutNulConcat(a, b');
    }
  }

  /** The rendering keeps every non-zero byte, as many times as the key holds it, and no zero. */
  lemma {:induction false} WithoutNulMultiset(s: seq<byte>)
    ensures multiset(WithoutNul(s)) == multiset(s)[0 as byte := 0]
    decreases |s|
  {
    if s != [] {
      var s' := s[..|s| - 1];
      WithoutNulMultiset(s');
      assert s == s' + [s[|s| - 1]];
    }
  }

  /** A key without zero bytes is rendered unchanged, and only then. */
  lemma {:induction false} WithoutNulIdentity(s: seq<byte>)
    ensures WithoutNul(s) == s <==> 0 !in s
    decreases |s|
  {
    if s != [] {
      var s' := s[..|s| - 1];
      WithoutNulIdentity(s');
      assert s == s' + [s[|s| - 1]];
      if WithoutNul(s) == s {
        assert forall i | 0 <= i < |s| :: s[i] != 0;
      }
    }
  }
}
