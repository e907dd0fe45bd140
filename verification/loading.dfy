/** Loading a texture file from the textures directory through the image
    decoder. */
module Loading {
  import opened Wrappers
  import opened Textures

  const ASSETS_ROOT: string := "assets/"
  const TEXTURES_DIR: string := ASSETS_ROOT + "textures/"

  /** A directory prefix is empty or ends in a slash, so a file name can be
      appended to it directly. */
  predicate IsDirectoryPrefix(dir: string)
  {
    |dir| == 0 || dir[|dir| - 1] == '/'
  }

  lemma TexturesDirIsDirectoryPrefix()
    ensures IsDirectoryPrefix(TEXTURES_DIR)
    ensures TEXTURES_DIR == "assets/textures/"
  {
  }

  /** The path of a texture file: the textures directory followed by the
      file name, which must not be empty. */
  function GetFullTexturePath(textureFilename: string): (path: string)
    requires |textureFilename| > 0
    ensures |path| == |TEXTURES_DIR| + |textureFilename|
    ensures path[..|TEXTURES_DIR|] == TEXTURES_DIR
    ensures path[|TEXTURES_DIR|..] == textureFilename
  {
    TEXTURES_DIR + textureFilename
  }

  /** Different file names name different files. */
  lemma FullTexturePathIsInjective(name1: string, name2: string)
    requires |name1| > 0 && |name2| > 0
    ensures GetFullTexturePath(name1) == GetFullTexturePath(name2) ==> name1 == name2
  {
    if GetFullTexturePath(name1) == GetFullTexturePath(name2) {
      calc {
        name1;
        GetFullTexturePath(name1)[|TEXTURES_DIR|..];
        GetFullTexturePath(name2)[|TEXTURES_DIR|..];
        name2;
      }
    }
  }

  datatype TextureLoadingException = TextureLoadingException(textureFilename: string)
  {
    /** The error message names the file it failed on, at its end. */
    function Message(): (message: string)
      ensures |message| > |textureFilename|
      ensures message[|message| - |textureFilename|..] == textureFilename
    {
      "Failed to load texture data from file " + textureFilename
    }
  }

  /** What the decoder reports for an image it could read: the address of the
      buffer it allocated and the image's dimensions. */
  datatype DecodedImage = DecodedImage(address: nat, Width: int, Height: int, ChannelsCount: int)

  /** Reads a texture file; `decode` is the image decoder applied to a path,
      which answers None when it cannot read the file. A failed decode is
      reported as a TextureLoadingException naming the file, and no texture
      is made. */
  method LoadTextureDataFromFile(textureFilename: string, decode: string -> Option<DecodedImage>)
    returns (result: Result<TextureData, TextureLoadingException>)
    requires |textureFilename| > 0
    ensures decode(GetFullTexturePath(textureFilename)).None? ==>
      result == Failure(TextureLoadingException(textureFilename))
    ensures decode(GetFullTexturePath(textureFilename)).Some? ==>
      var image := decode(GetFullTexturePath(textureFilename)).value;
      && result.Success? && fresh(result.value)
      && result.value.storage == Some(StbImageBuffer(image.address))
      && result.value.metadata == TextureMetadata(image.Width, image.Height, image.ChannelsCount, textureFilename)
  {
    var decoded := decode(GetFullTexturePath(textureFilename));
    if decoded.None? {
      return Failure(TextureLoadingException(textureFilename));
    }
    var image := decoded.value;
    var metadata := TextureMetadata(image.Width, image.Height, image.ChannelsCount, textureFilename);
    var data := TextureData.CreateFromStbImage(image.address, metadata);
    return Success(data);
  }
}
