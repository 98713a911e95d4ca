/**
 * The earlier, line-less bytecode chunk (src/chunk.rs): a growable byte
 * buffer that instructions are appended to.
 */
module RootChunk {
  import opened Support

  /** The single opcode this version declares; nothing reads or writes it yet. */
  datatype OpCode = OpReturn

  class Chunk {
    var code: seq<byte>

    constructor ()
      ensures code == []
    {
      code := [];
    }

    /**
     * Appends `b`: the buffer grows by one byte, `b` is at the new last
     * index, and the bytes written before stay unchanged and in order.
     */
    method Write(b: byte)
      modifies this
      ensures code == old(code) + [b]
    {
      code := code + [b];
    }
  }
}
