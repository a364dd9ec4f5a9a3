/**
 * The file system as the API routes see it. `fs` is foreign to the model: a
 * route receives what a read produced, keyed by the file name inside the
 * directory the route reads.
 */
module Files {
  /** What `fs.readFile(path, 'utf-8')` resolves to, or the error it rejects with (`code`, `message`). */
  datatype FileRead = Content(text: string) | ReadError(code: string, message: string)

  type Reader = string -> FileRead

  /** The error code for a path that does not exist. */
  const Enoent := "ENOENT"
}
