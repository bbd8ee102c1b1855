/** The RDF vocabularies the tools write and read, by namespace IRI. */
module Vocab {
  const SH: string := "http://www.w3.org/ns/shacl#"
  const XSD: string := "http://www.w3.org/2001/XMLSchema#"
  const RDF: string := "http://www.w3.org/1999/02/22-rdf-syntax-ns#"
  const SKOS: string := "http://www.w3.org/2004/02/skos/core#"
}
