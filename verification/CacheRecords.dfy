/** What the build cache records of a build, and how inputs name the outputs a build read. */
module CacheRecords {
  import opened Paths
  import opened Wrappers
  import opened Expand

  type Hash = string
  type Bytes = seq<bv8>

  /** What a build read, as it was then: sources by their stamps, outputs, kept under `@`, by their content's hash. */
  datatype Input = Input(path: Path, mtime: int, size: int, hash: Hash)

  datatype Record = Record(command: Command, hash: Hash, mtime: int, inputs: seq<Input>)

  const GENERATED: Name := "@"

  /** The name a record gives an output that was read, which no source file has. */
  function AsInput(output: Path): Path {
    [GENERATED] + output
  }

  /** Which output such a name is of; none if it is a source file's. */
  function OutputNamedBy(input: Path): Option<Path> {
    if |input| > 1 && input[0] == GENERATED then Some(input[1..]) else None
  }

  lemma InputNamesItsOutput(output: Path)
    ensures output != [] ==> OutputNamedBy(AsInput(output)) == Some(output)
    ensures forall input :: OutputNamedBy(input) == Some(output) ==> input == AsInput(output)
  {
    assert AsInput(output)[1..] == output;
    forall input | OutputNamedBy(input) == Some(output) ensures input == AsInput(output) {
      assert input == [input[0]] + input[1..];
    }
  }
}
