/** Values shared by every part of the scraper model: optional values, the
    client's error type, and the outcome of an operation that may fail or
    abort the process. */
module Common {

  datatype Option<+T> = None | Some(value: T)

  /** A byte of a fetched body or of an output file. */
  newtype byte = x: int | 0 <= x < 256

  type Bytes = seq<byte>

  /** The error enumeration of the client. `SerdeError` is part of the
      enumeration but no modelled operation produces it: the one JSON parse
      in the client unwraps its result instead of propagating it. */
  datatype CmsError =
    | LoginFailed
    | RequestFailed
    | MediaPlaylistNotFound
    | ReqwestError
    | SerdeError
    | IOError

  /** The places where the client unwraps a value that may be absent; reaching
      one with the value absent aborts the whole process. */
  datatype PanicSite =
    | ConfigNotJson          // the configuration script is not JSON
    | NoMasterPlaylistUrl    // the configuration object lacks `masterPlaylistUrl`
    | NoRenditionSelected    // no 1920x1080 rendition was found for a lesson

  /** Why an operation did not complete: a returned error or a panic. */
  datatype Fault = Error(error: CmsError) | Panic(site: PanicSite)

  datatype Result<+T> = Ok(value: T) | Fail(fault: Fault)

  /** Regrouping a concatenation, used where a log grows one piece at a time. */
  lemma ConcatAssoc<T>(a: seq<T>, b: seq<T>, c: seq<T>)
    ensures a + b + c == a + (b + c)
  {
  }

  /** Updating the same key twice keeps only the second value. */
  lemma UpdateTwice<K, V>(m: map<K, V>, k: K, a: V, b: V)
    ensures m[k := a][k := b] == m[k := b]
  {
  }
}
