/**
 * The parts of a corpus and of a search server's configuration that index naming
 * reads. A configuration string that is unset (None or empty, both falsy in
 * Python) is the empty string.
 */
module Corpora {

  datatype Corpus = Corpus(
    name: string,
    pk: nat,
    hasPythonDefinition: bool,
    esIndex: string,
    esAlias: string
  )

  /** A server's configuration; only `index_prefix` matters here. */
  datatype Server = Server(indexPrefix: string)
}
