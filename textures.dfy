/**
 * Textures as the loaders and meshes see them: a type tag, a file path and the
 * sRGB flag. The GL object and the image data are not part of this model.
 */
module Textures {
  /** TextureType without its TYPESCOUNT sentinel; NONE is NoType. */
  datatype TextureType = NoType | Albedo | Normal | Emission | Metalness | Roughness | AmbientOcclusion

  datatype Texture = Texture(kind: TextureType, path: string, srgb: bool)
}
