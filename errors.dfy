/**
 * The error entries an installation result carries. Each error has a stable
 * short code, which callers compare against (for instance "LIB002"), and a
 * message for people.
 */
module LibraryErrors {

  /** One error reported for a library installation. */
  datatype Error = Error(code: string, message: string)
}
