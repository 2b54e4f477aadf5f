/**
 * The values that flow between the document processor, the database manager
 * and the retrieval pipeline: metadata dictionaries, document chunks and the
 * hits a database query returns.
 */
module Records {
  import opened Wrappers

  /** A metadata value: the JSON scalars the components store. */
  datatype Value = Str(s: string) | Int(i: int) | Bool(b: bool)

  /** A metadata dictionary. */
  type Metadata = map<string, Value>

  /**
   * The MD5 hex digest of a string. Digests are kept symbolic: two digests
   * are equal exactly when the hashed strings are, so MD5 collisions are not
   * modelled.
   */
  datatype Digest = Md5(source: string)

  /** A chunk ready to be stored: its id, its text and its metadata. */
  datatype Document = Document(id: Digest, content: string, metadata: Metadata)

  /**
   * A search hit: the chunk's text and metadata, its distance to the query
   * (absent when the store reports no distances) and the database it came from.
   */
  datatype Hit = Hit(content: string, metadata: Metadata, distance: Option<real>, sourceDatabase: string)
}
