/** What the API server's objects have in common. */
module Kubernetes {

  /** Namespace and name of an object. */
  datatype Key = Key(ns: string, name: string)
}
