/** TextureData: decoded pixel bytes with their metadata, held either in an
    owned byte vector or in a buffer the image decoder allocated. */
module Textures {
  import opened Wrappers

  newtype TextureByte = x: int | 0 <= x < 256

  datatype TextureMetadata = TextureMetadata(Width: int, Height: int, ChannelsCount: int, SourceName: string)

  /** The two kinds of storage. A decoder buffer is known by its address; its
      contents belong to the decoder and are not modelled. */
  datatype TextureDataStorage =
    | ByteVector(bytes: seq<TextureByte>)
    | StbImageBuffer(address: nat)

  /** What GetData points at: the start of the vector's bytes, or the
      decoder's buffer. */
  datatype DataPointer =
    | VectorData(bytes: seq<TextureByte>)
    | BufferData(address: nat)

  /** The number of bytes a storage holds: a vector knows its length; a
      decoder buffer holds Width·Height·ChannelsCount bytes. */
  function DataSize(storage: TextureDataStorage, metadata: TextureMetadata): (size: int)
    ensures storage.ByteVector? ==> size == |storage.bytes|
    ensures storage.StbImageBuffer? ==> size == metadata.Width * metadata.Height * metadata.ChannelsCount
    ensures metadata.Width >= 0 && metadata.Height >= 0 && metadata.ChannelsCount >= 0 ==> size >= 0
  {
    match storage
    case ByteVector(bytes) => |bytes|
    case StbImageBuffer(_) =>
      MulNonNegative(metadata.Width, metadata.Height, metadata.ChannelsCount);
      metadata.Width * metadata.Height * metadata.ChannelsCount
  }

  lemma MulNonNegative(a: int, b: int, c: int)
    ensures a >= 0 && b >= 0 && c >= 0 ==> a * b * c >= 0
  {
    if a >= 0 && b >= 0 && c >= 0 {
      assert a * b >= 0;
    }
  }

  class TextureData {
    var storage: Option<TextureDataStorage>
    var metadata: TextureMetadata

    /** The private constructor from a storage and its metadata. */
    constructor (storage: TextureDataStorage, metadata: TextureMetadata)
      ensures this.storage == Some(storage) && this.metadata == metadata
    {
      this.storage := Some(storage);
      this.metadata := metadata;
    }

    /** Move construction takes the storage and the metadata and leaves the
        source without storage. */
    constructor Moved(other: TextureData)
      modifies other
      ensures storage == old(other.storage) && metadata == old(other.metadata)
      ensures other.storage == None
    {
      storage := other.storage;
      metadata := other.metadata;
      new;
      other.storage := None;
    }

    /** Move assignment: the target takes the source's storage and metadata
        and the source is left without storage. Moving a texture into itself
        therefore empties it. */
    method MoveAssign(other: TextureData)
      modifies this, other
      ensures other.storage == None
      ensures metadata == old(other.metadata)
      ensures other != this ==> storage == old(other.storage)
    {
      storage := other.storage;
      metadata := other.metadata;
      other.storage := None;
    }

    static method CreateFromBytes(bytes: seq<TextureByte>, metadata: TextureMetadata) returns (data: TextureData)
      ensures fresh(data)
      ensures data.storage == Some(ByteVector(bytes)) && data.metadata == metadata
      ensures data.GetDataSize() == |bytes| && data.GetData() == VectorData(bytes)
    {
      data := new TextureData(ByteVector(bytes), metadata);
    }

    /** Takes ownership of a buffer the decoder allocated at `address`. */
    static method CreateFromStbImage(address: nat, metadata: TextureMetadata) returns (data: TextureData)
      ensures fresh(data)
      ensures data.storage == Some(StbImageBuffer(address)) && data.metadata == metadata
      ensures data.GetDataSize() == metadata.Width * metadata.Height * metadata.ChannelsCount
      ensures data.GetData() == BufferData(address)
    {
      data := new TextureData(StbImageBuffer(address), metadata);
    }

    /** Only allowed while the storage is present, i.e. not after a move. */
    function GetData(): (pointer: DataPointer)
      reads this
      requires storage.Some?
      ensures pointer.VectorData? <==> storage.value.ByteVector?
      ensures pointer.VectorData? ==> pointer.bytes == storage.value.bytes
      ensures pointer.BufferData? ==> pointer.address == storage.value.address
    {
      match storage.value
      case ByteVector(bytes) => VectorData(bytes)
      case StbImageBuffer(address) => BufferData(address)
    }

    /** Only allowed while the storage is present, i.e. not after a move. */
    function GetDataSize(): (size: int)
      reads this
      requires storage.Some?
      ensures size == DataSize(storage.value, metadata)
    {
      match storage.value
      case ByteVector(bytes) => |bytes|
      case StbImageBuffer(_) => metadata.Width * metadata.Height * metadata.ChannelsCount
    }

    function GetMetadata(): (m: TextureMetadata)
      reads this
      ensures m == metadata
    {
      metadata
    }
  }

  /** Moving a texture keeps what its data and size report, under the new
      owner, and leaves the old one unusable for GetData and GetDataSize. */
  method MoveKeepsData(source: TextureData) returns (target: TextureData)
    requires source.storage.Some?
    modifies source
    ensures fresh(target) && source.storage.None?
    ensures target.storage == old(source.storage)
    ensures target.GetData() == old(source.GetData())
    ensures target.GetDataSize() == old(source.GetDataSize())
    ensures target.GetMetadata() == old(source.GetMetadata())
  {
    target := new TextureData.Moved(source);
  }
}
