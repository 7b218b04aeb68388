/** The growable receive buffer (src/cdynbuffer.cc). */
module DynBuffers {
  import opened Wire

  const DEFAULT_SIZE_BUFFER := 1024

  class DynBuffer {
    /** Buffer; its length is Size. */
    var data: array<byte>

    ghost predicate Valid()
      reads this
    {
      DEFAULT_SIZE_BUFFER <= data.Length
    }

    constructor ()
      ensures Valid() && fresh(data) && data.Length == 1024
    {
      data := new byte[DEFAULT_SIZE_BUFFER];
    }

    /** Capacity never shrinks; when asked to, growing keeps the bytes already there. */
    method NeededSize(size: int, keepValues: bool)
      requires Valid()
      modifies this
      ensures Valid() && 1024 <= data.Length
      ensures data.Length == if size <= old(data.Length) then old(data.Length) else size
      ensures size <= old(data.Length) ==> data == old(data)
      ensures size > old(data.Length) ==> fresh(data)
      ensures keepValues ==> data[..old(data.Length)] == old(data[..])
    {
      if size <= data.Length {
        assert data[..data.Length] == data[..];
        return;
      }
      Allocate(size, keepValues);
    }

    method Allocate(size: nat, keepValues: bool)
      requires Valid() && data.Length < size
      modifies this
      ensures Valid() && fresh(data) && data.Length == size
      ensures keepValues ==> data[..old(data.Length)] == old(data[..])
    {
      var newBuffer := new byte[size];
      if keepValues {
        var i := 0;
        while i < data.Length
          invariant 0 <= i <= data.Length && data == old(data)
          invariant newBuffer[..i] == data[..i] && data[..] == old(data[..])
        {
          newBuffer[i] := data[i];
          i := i + 1;
        }
        assert data[..i] == data[..];
      }
      data := newBuffer;
    }
  }
}
