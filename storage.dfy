/**
 * File uploads through the blob store. The store itself is external: an upload
 * is described by the file the request carried, the prefix the service puts in
 * front of its name (a random string or a timestamp), and whether the write to
 * the store succeeded.
 */
module Storage {
  import opened Common

  /** An optional uploaded file and the fate of its write to the blob store. */
  datatype Upload =
    | NoFile
    | File(originalName: string, prefix: string, putSucceeds: bool)

  /** The stored name `${prefix}-${originalname}` both upload helpers build. */
  function StoredName(prefix: string, originalName: string): string {
    prefix + "-" + originalName
  }

  /** The storage key `${folder}/${fileName}` a file is written under. */
  function StoragePath(folder: string, fileName: string): string {
    folder + "/" + fileName
  }

  /** `folder.replace(/\/$/, '')`: one trailing slash is dropped. */
  function TrimTrailingSlash(folder: string): (r: string)
    ensures |folder| > 0 && folder[|folder| - 1] == '/' ==> r + "/" == folder
    ensures (|folder| == 0 || folder[|folder| - 1] != '/') ==> r == folder
  {
    if |folder| > 0 && folder[|folder| - 1] == '/' then folder[..|folder| - 1] else folder
  }

  /** `image ? SojebStorage.url(`${folder}/${image}`) : null`, with the URL taken as its storage key. */
  function ImageUrl(folder: string, image: Option<string>): (r: Option<string>)
    ensures r.Some? <==> Truthy(image)
    ensures r.Some? ==> r.value == StoragePath(folder, image.value)
  {
    if Truthy(image) then Some(StoragePath(folder, image.value)) else None
  }

  /** A stored name is never empty, so it is always truthy where the services test it. */
  lemma StoredNameNonEmpty(prefix: string, originalName: string)
    ensures StoredName(prefix, originalName) != ""
    ensures |StoredName(prefix, originalName)| == |prefix| + 1 + |originalName|
  {
  }
}
