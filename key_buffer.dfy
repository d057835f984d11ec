/**
 * The scratch buffer that `nst_key_init` returns and the append helpers
 * grow, and the key object whose fields `nst_key_build` writes.
 *
 * The helpers themselves are not part of this model; their behaviour is
 * stated here as contracts. The allocator's verdict for the call is the
 * `fail` argument; a failed append leaves the contents unchanged.
 */
module KeyBuffer {
  import opened Wrappers
  import opened Bytes

  datatype Status = NstOk | NstErr

  class Buffer {
    var data: seq<byte>
    const delim: byte

    /** `nst_key_init`: an empty buffer. */
    constructor (d: byte)
      ensures data == [] && delim == d
    {
      data := [];
      delim := d;
    }

    /** `nst_key_cat`: appends `v` with no delimiter. */
    method Cat(v: seq<byte>, fail: bool) returns (ret: Status)
      modifies this
      ensures ret == NstOk <==> !fail
      ensures data == if fail then old(data) else old(data) + v
    {
      if fail {
        ret := NstErr;
      } else {
        data := data + v;
        ret := NstOk;
      }
    }

    /** `nst_key_catist`: appends `v`, then the delimiter. */
    method CatIst(v: seq<byte>, fail: bool) returns (ret: Status)
      modifies this
      ensures ret == NstOk <==> !fail
      ensures data == if fail then old(data) else old(data) + v + [delim]
    {
      if fail {
        ret := NstErr;
      } else {
        data := data + v + [delim];
        ret := NstOk;
      }
    }

    /** `nst_key_catdel`: appends only the delimiter (an absent segment). */
    method CatDel(fail: bool) returns (ret: Status)
      modifies this
      ensures ret == NstOk <==> !fail
      ensures data == if fail then old(data) else old(data) + [delim]
    {
      if fail {
        ret := NstErr;
      } else {
        data := data + [delim];
        ret := NstOk;
      }
    }
  }

  /** `struct nst_key`: `data` is `None` while no block holds the key. */
  class Key {
    var size: nat
    var data: Option<seq<byte>>

    constructor ()
      ensures size == 0 && data == None
    {
      size := 0;
      data := None;
    }
  }
}
