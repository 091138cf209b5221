/**
  Content-derived identity: what a document's digest, block ids and id depend on, and what they do
  not. SHA-256 and the canonical JSON rendering are given functions.
 */
module Identity {
  import opened Wrappers
  import opened Numbers

  type Byte = n: nat | n < 256
  type Bytes = seq<Byte>

  const U64_SIZE: nat := 0x1_0000_0000_0000_0000

  datatype Block =
    | Heading(id: Bytes, level: nat, text: string)
    | Paragraph(id: Bytes, text: string)
    | Unsupported

  /** What the digest sees of a block. */
  datatype Content = HeadingContent(level: nat, text: string) | ParagraphContent(text: string)

  datatype Error = UnsupportedBlock | InvalidIdentity

  datatype Provenance = Provenance(blockIndex: nat, strategy: string, source: string)

  /** What the route that delivered the text knows about it. */
  datatype About = About(address: string, source: string, strategy: string, title: Option<string>, language: Option<string>)

  datatype Document = Document(id: Bytes, address: string, digest: Bytes, title: Option<string>,
                               language: Option<string>, blocks: seq<Block>, provenance: seq<Provenance>)

  /** `hex` is the lower-case form of a digest; 64 bytes for a 32-byte digest. */
  datatype Library = Library(sha256: Bytes -> Bytes, canonical: seq<Content> -> Bytes, hex: Bytes -> Bytes)

  ghost predicate LibraryValid(lib: Library) {
    (forall b :: |lib.sha256(b)| == 32) && (forall b :: |lib.hex(b)| == 2 * |b|)
  }

  // ----- identifiers

  function Ascii(s: string): Bytes {
    if s == [] then [] else Ascii(s[..|s| - 1]) + [s[|s| - 1] as int % 256]
  }

  const DOCUMENT_PREFIX: Bytes := Ascii("ratatoskr.document.v1") + [0]

  /** The block prefix ends in a backslash and a digit, not in a zero byte. */
  const BLOCK_PREFIX: Bytes := Ascii("ratatoskr.document-ir.block.v1\\0")

  /** The first sixteen bytes of a digest with the version and variant bits overwritten. */
  function Uuid8(digest: Bytes): (r: Bytes)
    requires |digest| >= 16
    ensures |r| == 16
  {
    digest[..16][6 := digest[6] % 0x10 + 0x80][8 := digest[8] % 0x40 + 0x80]
  }

  /** Section 5.8 of RFC 9562: version nibble 8 and variant bits 10; every other bit is the digest's. */
  lemma Uuid8Bits(digest: Bytes)
    requires |digest| >= 16
    ensures var r := Uuid8(digest);
            && IsVersion8(r)
            && r[6] % 0x10 == digest[6] % 0x10 && r[8] % 0x40 == digest[8] % 0x40
            && forall i :: 0 <= i < 16 && i != 6 && i != 8 ==> r[i] == digest[i]
  {
  }

  predicate IsVersion8(id: Bytes) { |id| == 16 && id[6] / 0x10 == 8 && id[8] / 0x40 == 2 }

  /** `to_be_bytes` of an unsigned integer in `width` bytes. */
  function BigEndian(n: nat, width: nat): (r: Bytes)
    ensures |r| == width
  {
    if width == 0 then [] else BigEndian(n / 256, width - 1) + [n % 256]
  }

  function Power256(k: nat): nat { if k == 0 then 1 else 256 * Power256(k - 1) }

  lemma {:induction false} BigEndianInjective(a: nat, b: nat, width: nat)
    requires a < Power256(width) && b < Power256(width) && BigEndian(a, width) == BigEndian(b, width)
    ensures a == b
  {
    if width > 0 {
      var x, y := BigEndian(a, width), BigEndian(b, width);
      assert x[..width - 1] == BigEndian(a / 256, width - 1) && y[..width - 1] == BigEndian(b / 256, width - 1);
      assert x[width - 1] == y[width - 1];
      BigEndianInjective(a / 256, b / 256, width - 1);
    }
  }

  function DocumentMaterial(lib: Library, owner: Bytes, digest: Bytes): Bytes {
    DOCUMENT_PREFIX + (owner + lib.hex(digest))
  }

  function BlockMaterial(lib: Library, digest: Bytes, index: nat): Bytes {
    BLOCK_PREFIX + (lib.hex(digest) + BigEndian(index, 8))
  }

  function DocumentId(lib: Library, owner: Bytes, digest: Bytes): Bytes
    requires LibraryValid(lib)
  {
    Uuid8(lib.sha256(DocumentMaterial(lib, owner, digest)))
  }

  function BlockId(lib: Library, digest: Bytes, index: nat): Bytes
    requires LibraryValid(lib)
  {
    Uuid8(lib.sha256(BlockMaterial(lib, digest, index)))
  }

  // ----- contents

  function ContentOf(b: Block): Option<Content> {
    match b
    case Heading(_, level, text) => Some(HeadingContent(level, text))
    case Paragraph(_, text) => Some(ParagraphContent(text))
    case Unsupported => None
  }

  /** The contents of the blocks, or nothing when one of them has a kind this build does not know. */
  function Contents(blocks: seq<Block>): Option<seq<Content>> {
    if blocks == [] then Some([])
    else
      match (Contents(blocks[..|blocks| - 1]), ContentOf(blocks[|blocks| - 1]))
      case (Some(before), Some(last)) => Some(before + [last])
      case _ => None
  }

  function WithId(b: Block, id: Bytes): Block {
    match b
    case Heading(_, level, text) => Heading(id, level, text)
    case Paragraph(_, text) => Paragraph(id, text)
    case Unsupported => Unsupported
  }

  function WithIds(lib: Library, blocks: seq<Block>, digest: Bytes): (r: seq<Block>)
    requires LibraryValid(lib)
    ensures |r| == |blocks| && forall i :: 0 <= i < |r| ==> r[i] == WithId(blocks[i], BlockId(lib, digest, i))
  {
    seq(|blocks|, i requires 0 <= i < |blocks| => WithId(blocks[i], BlockId(lib, digest, i)))
  }

  /** `assign_block_ids`: the loop that overwrites every block's id in place. */
  method AssignBlockIds(lib: Library, blocks: array<Block>, digest: Bytes)
    returns (r: Result<(), Error>, ghost done: nat)
    requires LibraryValid(lib)
    modifies blocks
    ensures r.Ok? <==> Contents(old(blocks[..])).Some? && blocks.Length <= U64_SIZE
    ensures r.Ok? ==> blocks[..] == WithIds(lib, old(blocks[..]), digest)
    ensures r.Err? ==> done < blocks.Length && (old(blocks[done]).Unsupported? || done >= U64_SIZE)
    ensures r.Err? ==> forall i :: 0 <= i < done ==> blocks[i] == WithId(old(blocks[i]), BlockId(lib, digest, i))
    ensures r.Err? ==> forall i :: done <= i < blocks.Length ==> blocks[i] == old(blocks[i])
  {
    ghost var was := blocks[..];
    for i := 0 to blocks.Length
      invariant i <= U64_SIZE
      invariant forall k :: 0 <= k < i ==> blocks[k] == WithId(was[k], BlockId(lib, digest, k))
      invariant forall k :: i <= k < blocks.Length ==> blocks[k] == was[k]
      invariant Contents(was[..i]).Some?
    {
      assert was[..i + 1][..i] == was[..i];
      if i >= U64_SIZE {
        return Err(InvalidIdentity), i;
      }
      var id := BlockId(lib, digest, i);
      if blocks[i].Unsupported? {
        UnsupportedStays(was, i);
        return Err(UnsupportedBlock), i;
      }
      blocks[i] := WithId(blocks[i], id);
    }
    assert was[..blocks.Length] == was;
    r, done := Ok(()), blocks.Length;
  }

  lemma {:induction false} UnsupportedStays(blocks: seq<Block>, i: nat)
    requires i < |blocks| && blocks[i].Unsupported?
    ensures Contents(blocks).None?
    decreases |blocks|
  {
    if i < |blocks| - 1 { UnsupportedStays(blocks[..|blocks| - 1], i); }
  }

  function ProvenanceOf(n: nat, strategy: string, source: string): (r: seq<Provenance>)
    ensures |r| == n && forall i :: 0 <= i < n ==> r[i] == Provenance(i, strategy, source)
  {
    seq(n, (i: nat) => Provenance(i, strategy, source))
  }

  /** `assemble_document`. */
  function Assemble(lib: Library, owner: Bytes, about: About, blocks: seq<Block>): Result<Document, Error>
    requires LibraryValid(lib)
  {
    match Contents(blocks)
    case None => Err(UnsupportedBlock)
    case Some(contents) =>
      if |blocks| > U32_MAX + 1 then Err(InvalidIdentity)
      else
        var digest := lib.sha256(lib.canonical(contents));
        Ok(Document(DocumentId(lib, owner, digest), about.address, digest, about.title, about.language,
                    WithIds(lib, blocks, digest), ProvenanceOf(|blocks|, about.strategy, about.source)))
  }

  // ----- what identity depends on

  lemma {:induction false} SameContents(blocks: seq<Block>, blocks': seq<Block>)
    requires |blocks| == |blocks'| && forall i :: 0 <= i < |blocks| ==> ContentOf(blocks[i]) == ContentOf(blocks'[i])
    ensures Contents(blocks) == Contents(blocks')
    decreases |blocks|
  {
    if blocks != [] { SameContents(blocks[..|blocks| - 1], blocks'[..|blocks| - 1]); }
  }

  lemma {:induction false} ContentsAt(blocks: seq<Block>)
    requires Contents(blocks).Some?
    ensures |Contents(blocks).value| == |blocks|
    ensures forall i :: 0 <= i < |blocks| ==> ContentOf(blocks[i]) == Some(Contents(blocks).value[i])
    decreases |blocks|
  {
    if blocks != [] { ContentsAt(blocks[..|blocks| - 1]); }
  }

  lemma WithIdKeepsContent(b: Block, id: Bytes)
    ensures ContentOf(WithId(b, id)) == ContentOf(b)
  {
  }

  lemma {:induction false} SameBlocks(lib: Library, blocks: seq<Block>, blocks': seq<Block>, digest: Bytes)
    requires LibraryValid(lib) && Contents(blocks).Some? && Contents(blocks) == Contents(blocks')
    ensures WithIds(lib, blocks, digest) == WithIds(lib, blocks', digest)
  {
    ContentsAt(blocks);
    ContentsAt(blocks');
    forall i | 0 <= i < |blocks| ensures WithIds(lib, blocks, digest)[i] == WithIds(lib, blocks', digest)[i] {
      assert ContentOf(blocks[i]) == ContentOf(blocks'[i]);
    }
  }

  /**
    Digest, block ids and document id are the same for any two assemblies of one owner whose blocks
    agree in kind, level and text: address, source, strategy, title, language and previous ids are
    free to differ.
   */
  lemma IdentityDependsOnContentOnly(lib: Library, owner: Bytes, about: About, blocks: seq<Block>,
                                     about': About, blocks': seq<Block>)
    requires LibraryValid(lib) && Contents(blocks) == Contents(blocks') && Assemble(lib, owner, about, blocks).Ok?
    ensures var a, b := Assemble(lib, owner, about, blocks), Assemble(lib, owner, about', blocks');
            b.Ok? && a.value.digest == b.value.digest && a.value.id == b.value.id && a.value.blocks == b.value.blocks
  {
    ContentsAt(blocks);
    ContentsAt(blocks');
    SameBlocks(lib, blocks, blocks', lib.sha256(lib.canonical(Contents(blocks).value)));
  }

  /** Assembling a document's own blocks again gives the document back. */
  lemma AssemblingAgainIsFixpoint(lib: Library, owner: Bytes, about: About, blocks: seq<Block>)
    requires LibraryValid(lib) && Assemble(lib, owner, about, blocks).Ok?
    ensures var d := Assemble(lib, owner, about, blocks); Assemble(lib, owner, about, d.value.blocks) == d
  {
    var d := Assemble(lib, owner, about, blocks).value;
    forall i | 0 <= i < |blocks| ensures ContentOf(blocks[i]) == ContentOf(d.blocks[i]) {
      WithIdKeepsContent(blocks[i], BlockId(lib, d.digest, i));
    }
    SameContents(blocks, d.blocks);
    SameBlocks(lib, blocks, d.blocks, d.digest);
  }

  /**
    Every identifier is a version 8 UUID, provenance entry `i` names block `i`, block `i` keeps its
    kind, level and text, and the route's address, title and language are the document's.
   */
  lemma AssembledForm(lib: Library, owner: Bytes, about: About, blocks: seq<Block>, i: nat)
    requires LibraryValid(lib) && i < |blocks| && Assemble(lib, owner, about, blocks).Ok?
    ensures var d := Assemble(lib, owner, about, blocks).value;
            && |d.blocks| == |d.provenance| == |blocks|
            && d.provenance[i] == Provenance(i, about.strategy, about.source)
            && !d.blocks[i].Unsupported? && IsVersion8(d.blocks[i].id) && IsVersion8(d.id)
            && ContentOf(d.blocks[i]) == ContentOf(blocks[i])
            && d.address == about.address && d.title == about.title && d.language == about.language
  {
    var digest := lib.sha256(lib.canonical(Contents(blocks).value));
    ContentsAt(blocks);
    assert ContentOf(blocks[i]).Some?;
    Uuid8Bits(lib.sha256(BlockMaterial(lib, digest, i)));
    Uuid8Bits(lib.sha256(DocumentMaterial(lib, owner, digest)));
  }

  // ----- distinctness, where the hash does not collide

  /** Two materials that hash to one identifier are the same material. */
  ghost predicate NoCollision(lib: Library, a: Bytes, b: Bytes)
    requires LibraryValid(lib)
  {
    Uuid8(lib.sha256(a)) == Uuid8(lib.sha256(b)) ==> a == b
  }

  ghost predicate HexFaithful(lib: Library) { forall a, b :: lib.hex(a) == lib.hex(b) ==> a == b }

  lemma PrefixCancels(prefix: Bytes, a: Bytes, b: Bytes)
    requires prefix + a == prefix + b
    ensures a == b
  {
    assert (prefix + a)[|prefix|..] == a && (prefix + b)[|prefix|..] == b;
  }

  lemma SplitCancels(a: Bytes, x: Bytes, b: Bytes, y: Bytes)
    requires a + x == b + y && |a| == |b|
    ensures a == b && x == y
  {
    assert (a + x)[..|a|] == a && (b + y)[..|b|] == b;
    assert (a + x)[|a|..] == x && (b + y)[|b|..] == y;
  }

  /** Another owner or another digest has another document id. */
  lemma DocumentIdsDistinct(lib: Library, owner: Bytes, digest: Bytes, owner': Bytes, digest': Bytes)
    requires LibraryValid(lib) && HexFaithful(lib) && |owner| == |owner'| == 16
    requires NoCollision(lib, DocumentMaterial(lib, owner, digest), DocumentMaterial(lib, owner', digest'))
    ensures DocumentId(lib, owner, digest) == DocumentId(lib, owner', digest') <==> owner == owner' && digest == digest'
  {
    if DocumentId(lib, owner, digest) == DocumentId(lib, owner', digest') {
      PrefixCancels(DOCUMENT_PREFIX, owner + lib.hex(digest), owner' + lib.hex(digest'));
      SplitCancels(owner, lib.hex(digest), owner', lib.hex(digest'));
    }
  }

  lemma IndexFits(i: nat)
    requires i <= U32_MAX
    ensures i < Power256(8)
  {
    assert Power256(8) == U64_SIZE by {
      assert Power256(4) == 0x1_0000_0000;
      assert Power256(8) == 256 * (256 * (256 * (256 * Power256(4))));
    }
  }

  /** Two blocks of one document never share an id. */
  lemma BlockIdsDistinct(lib: Library, digest: Bytes, i: nat, j: nat)
    requires LibraryValid(lib) && i <= U32_MAX && j <= U32_MAX
    requires NoCollision(lib, BlockMaterial(lib, digest, i), BlockMaterial(lib, digest, j))
    ensures BlockId(lib, digest, i) == BlockId(lib, digest, j) <==> i == j
  {
    if BlockId(lib, digest, i) == BlockId(lib, digest, j) {
      PrefixCancels(BLOCK_PREFIX, lib.hex(digest) + BigEndian(i, 8), lib.hex(digest) + BigEndian(j, 8));
      PrefixCancels(lib.hex(digest), BigEndian(i, 8), BigEndian(j, 8));
      IndexFits(i);
      IndexFits(j);
      BigEndianInjective(i, j, 8);
    }
  }

  // ----- two assemblies, where neither rendering, hash nor hex collides

  ghost predicate CanonicalFaithful(lib: Library) { forall a, b :: lib.canonical(a) == lib.canonical(b) ==> a == b }

  /** The renderings of the two contents have digests of their own. */
  predicate RenderingsApart(lib: Library, blocks: seq<Block>, blocks': seq<Block>)
    requires Contents(blocks).Some? && Contents(blocks').Some?
  {
    var x, y := lib.canonical(Contents(blocks).value), lib.canonical(Contents(blocks').value);
    lib.sha256(x) == lib.sha256(y) ==> x == y
  }

  /** Two assembled documents have one digest exactly when their contents agree. */
  lemma DigestsEqualExactly(lib: Library, owner: Bytes, about: About, blocks: seq<Block>, owner': Bytes, about': About, blocks': seq<Block>)
    requires LibraryValid(lib) && CanonicalFaithful(lib)
    requires Assemble(lib, owner, about, blocks).Ok? && Assemble(lib, owner', about', blocks').Ok? && RenderingsApart(lib, blocks, blocks')
    ensures Assemble(lib, owner, about, blocks).value.digest == Assemble(lib, owner', about', blocks').value.digest
            <==> Contents(blocks) == Contents(blocks')
  {
    assert lib.canonical(Contents(blocks).value) == lib.canonical(Contents(blocks').value)
           ==> Contents(blocks).value == Contents(blocks').value;
  }

  /** Two assembled documents have one identity exactly when their owners and their contents agree. */
  lemma DocumentIdsEqualExactly(lib: Library, owner: Bytes, about: About, blocks: seq<Block>, owner': Bytes, about': About, blocks': seq<Block>)
    requires LibraryValid(lib) && CanonicalFaithful(lib) && HexFaithful(lib) && |owner| == |owner'| == 16
    requires Assemble(lib, owner, about, blocks).Ok? && Assemble(lib, owner', about', blocks').Ok? && RenderingsApart(lib, blocks, blocks')
    requires NoCollision(lib, DocumentMaterial(lib, owner, Assemble(lib, owner, about, blocks).value.digest),
                         DocumentMaterial(lib, owner', Assemble(lib, owner', about', blocks').value.digest))
    ensures Assemble(lib, owner, about, blocks).value.id == Assemble(lib, owner', about', blocks').value.id
            <==> owner == owner' && Contents(blocks) == Contents(blocks')
  {
    var d, d' := Assemble(lib, owner, about, blocks).value, Assemble(lib, owner', about', blocks').value;
    DigestsEqualExactly(lib, owner, about, blocks, owner', about', blocks');
    DocumentIdsDistinct(lib, owner, d.digest, owner', d'.digest);
  }

  /** A block id stands for one text at one position, whichever documents the two blocks are of. */
  lemma BlockIdsEqualExactly(lib: Library, owner: Bytes, about: About, blocks: seq<Block>, owner': Bytes, about': About, blocks': seq<Block>,
                             i: nat, j: nat)
    requires LibraryValid(lib) && CanonicalFaithful(lib) && HexFaithful(lib)
    requires Assemble(lib, owner, about, blocks).Ok? && Assemble(lib, owner', about', blocks').Ok? && RenderingsApart(lib, blocks, blocks')
    requires i < |blocks| && j < |blocks'|
    requires NoCollision(lib, BlockMaterial(lib, Assemble(lib, owner, about, blocks).value.digest, i),
                         BlockMaterial(lib, Assemble(lib, owner', about', blocks').value.digest, j))
    ensures var b, b' := Assemble(lib, owner, about, blocks).value.blocks[i], Assemble(lib, owner', about', blocks').value.blocks[j];
            && !b.Unsupported? && !b'.Unsupported?
            && (b.id == b'.id <==> Contents(blocks) == Contents(blocks') && i == j)
  {
    var d, d' := Assemble(lib, owner, about, blocks).value, Assemble(lib, owner', about', blocks').value;
    DigestsEqualExactly(lib, owner, about, blocks, owner', about', blocks');
    BlockHasId(lib, owner, about, blocks, i);
    BlockHasId(lib, owner', about', blocks', j);
    if d.blocks[i].id == d'.blocks[j].id {
      MaterialsSplit(lib, d.digest, i, d'.digest, j);
    }
  }

  lemma BlockHasId(lib: Library, owner: Bytes, about: About, blocks: seq<Block>, i: nat)
    requires LibraryValid(lib) && Assemble(lib, owner, about, blocks).Ok? && i < |blocks|
    ensures var d := Assemble(lib, owner, about, blocks).value;
            i <= U32_MAX && |d.digest| == 32 && !d.blocks[i].Unsupported? && d.blocks[i].id == BlockId(lib, d.digest, i)
  {
    ContentsAt(blocks);
    assert ContentOf(blocks[i]).Some?;
  }

  /** Equal block materials have equal digests and equal positions. */
  lemma MaterialsSplit(lib: Library, digest: Bytes, i: nat, digest': Bytes, j: nat)
    requires LibraryValid(lib) && HexFaithful(lib) && |digest| == |digest'| && i <= U32_MAX && j <= U32_MAX
    requires BlockMaterial(lib, digest, i) == BlockMaterial(lib, digest', j)
    ensures digest == digest' && i == j
  {
    PrefixCancels(BLOCK_PREFIX, lib.hex(digest) + BigEndian(i, 8), lib.hex(digest') + BigEndian(j, 8));
    SplitCancels(lib.hex(digest), BigEndian(i, 8), lib.hex(digest'), BigEndian(j, 8));
    IndexFits(i);
    IndexFits(j);
    BigEndianInjective(i, j, 8);
  }
}
