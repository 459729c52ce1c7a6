/**
 * The seekable binary file every parser shares: an immutable byte sequence and one
 * cursor. `read(n)` returns what is left up to `n` bytes (fewer at the end of the
 * file, none past it) and `seek(p)` may move the cursor anywhere, even past the end.
 */
module FileHandles {
  import opened SorTypes

  /** The bytes `read(n)` returns when the cursor is at `pos`. */
  function Take(data: Bytes, pos: nat, n: nat): (r: Bytes)
    ensures |r| <= n
    ensures pos + n <= |data| ==> r == data[pos..pos + n]
    ensures pos < |data| < pos + n ==> r == data[pos..]
    ensures |data| <= pos ==> r == []
  {
    if |data| <= pos then [] else if pos + n <= |data| then data[pos..pos + n] else data[pos..]
  }

  /** Where the cursor is after `read(n)` from `pos`. */
  function After(data: Bytes, pos: nat, n: nat): (p: nat)
    ensures pos + n <= |data| ==> p == pos + n
    ensures pos <= |data| ==> p == Min(pos + n, |data|)
    ensures |data| <= pos ==> p == pos
  {
    if |data| <= pos then pos else Min(pos + n, |data|)
  }

  class FileHandle {
    const data: Bytes
    var pos: nat

    constructor (data: Bytes)
      ensures this.data == data && pos == 0
    {
      this.data := data;
      pos := 0;
    }

    method Seek(p: nat)
      modifies this
      ensures pos == p
    {
      pos := p;
    }

    method Read(n: nat) returns (bs: Bytes)
      modifies this
      ensures bs == Take(data, old(pos), n)
      ensures pos == After(data, old(pos), n)
    {
      bs := Take(data, pos, n);
      pos := After(data, pos, n);
    }
  }
}
