/** Values shared by the handlers: optional values, bytes and HTTP responses. */
module Http {

  /** An optional value, used for the environment variable and the `.env` file. */
  datatype Option<+T> = None | Some(value: T)

  /** One octet of a file's contents. */
  newtype byte = x: int | 0 <= x < 256

  /** A response body: nothing (`finish()`), a text body or raw file bytes. */
  datatype Body = Empty | Text(text: string) | Bytes(bytes: seq<byte>)

  /** A response: its status code, its body and whether it carries the header
      `Access-Control-Allow-Origin: *`. */
  datatype Response = Response(status: nat, body: Body, cors: bool)
}
