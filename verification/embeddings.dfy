/** The text and image embedders, as opaque functions. The model inference
    itself is not part of this model; what is kept is the one rule the image
    embedder checks before embedding: the image file must exist. */
module Embeddings {
  import opened Common

  /** `text` and `image` stand for the two embedding models; `files` is the set of
      paths that exist on disk when an image is embedded. */
  datatype Embedders = Embedders(
    text: string -> Vector,
    image: string -> Vector,
    files: set<string>)

  /** `ImageEmbedder.embed(path)`: FileNotFoundError when the file is missing. */
  function EmbedImage(e: Embedders, path: string): (r: Result<Vector>)
    ensures r.Ok? <==> path in e.files
    ensures r.Ok? ==> r.value == e.image(path)
    ensures r.Err? ==> r.error == ImageFileNotFound(path)
  {
    if path in e.files then Ok(e.image(path)) else Err(ImageFileNotFound(path))
  }
}
