/** Names of local files. */
module Paths {
  datatype Path = Path(name: string)
}
