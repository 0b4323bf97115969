/** The record every document parser produces (parsers/base.py). */
module ParserBase {
  import opened Wrappers
  import opened Py
  import opened Text

  /** A parsed document: Markdown content, metadata, source path, optional page and chunk id. */
  datatype Document = Document(
    content: string,
    metadata: Dict,
    source: string,
    pageNumber: Option<int>,
    chunkId: string)

  /**
   * The parts of a `pathlib.Path` the parsers read: `str(path)`, `path.name` and
   * `path.stem`.
   */
  datatype FilePath = FilePath(path: string, name: string, stem: string)

  /**
   * `supports(file_type)`, which every parser writes the same way: the lower-cased file type is
   * one of the parser's extensions.
   */
  function SupportsAny(extensions: set<string>, fileType: string): (b: bool)
    ensures b <==> Lower(fileType) in extensions
  {
    Lower(fileType) in extensions
  }

  /** `supports` ignores case: a file type and its lower-cased form are treated alike. */
  lemma SupportsIgnoresCase(extensions: set<string>, fileType: string)
    ensures SupportsAny(extensions, fileType) == SupportsAny(extensions, Lower(fileType))
  {
    assert Lower(Lower(fileType)) == Lower(fileType);
  }

  /** `f"{stem}_full"`, the chunk id of a whole-file fallback document. */
  function FullId(stem: string): string {
    stem + "_full"
  }

  /** `f"{stem}_{kind}_{i}"`, the chunk id of the i-th piece of a file. */
  function ChunkId(stem: string, kind: string, i: nat): string {
    stem + "_" + kind + "_" + NatToString(i)
  }

  /** Chunk ids of different pieces of the same file and kind differ. */
  lemma ChunkIdInjective(stem: string, kind: string, i: nat, j: nat)
    requires ChunkId(stem, kind, i) == ChunkId(stem, kind, j)
    ensures i == j
  {
    var p := stem + "_" + kind + "_";
    assert ChunkId(stem, kind, i) == p + NatToString(i);
    assert ChunkId(stem, kind, j) == p + NatToString(j);
    assert NatToString(i) == ChunkId(stem, kind, i)[|p|..];
    assert NatToString(j) == ChunkId(stem, kind, j)[|p|..];
    NatToStringInjective(i, j);
  }

  /** A whole-file id never collides with a piece id whose kind does not start with 'f'. */
  lemma FullIdIsNotChunkId(stem: string, kind: string, i: nat)
    requires kind != [] && kind[0] != 'f'
    ensures FullId(stem) != ChunkId(stem, kind, i)
  {
    assert FullId(stem)[|stem| + 1] == 'f';
    assert ChunkId(stem, kind, i)[|stem| + 1] == kind[0];
  }
}
