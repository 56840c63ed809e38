/** The values the browser side, the client hook and the relay share. */
module ChatTypes {

  /** A JavaScript value that may be `undefined`. */
  datatype Option<+T> = None | Some(value: T)

  /** The `type` field of a chat turn: `'user'` or `'ai'`. */
  datatype Kind = User | Ai

  /** A browser `File` as the chat sees it: a name, a MIME type (`file.type`,
      possibly empty) and its bytes. */
  datatype File = File(name: string, mime: string, bytes: seq<bv8>)
  {
    /** `file.size`: the number of bytes. */
    function Size(): nat { |bytes| }
  }

  /** The file descriptor the client sends and the relay reads:
      `{name, size, type}`, without the bytes. */
  datatype FileDesc = FileDesc(name: string, size: nat, mime: string)

  /** One turn of the conversation (`interface Message`). The id and the
      timestamp are opaque values supplied by whoever creates the turn;
      `files` is absent on the assistant's turns. */
  datatype Message = Message(id: string, kind: Kind, content: string, files: Option<seq<File>>, timestamp: nat)
}
