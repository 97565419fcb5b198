/**
 * How every editor window turns the selected folder into a persistence key,
 * and which file the storage backend keeps for that key.
 */
module Paths {

  const SEPARATOR: char := '/'

  /** `PathBuf::push` inserts a separator unless the path is empty or already ends in one. */
  predicate NeedsSeparator(dir: string) {
    |dir| > 0 && dir[|dir| - 1] != SEPARATOR
  }

  /** `Path::join` with a relative name. */
  function Join(dir: string, name: string): (p: string)
    ensures |p| == |dir| + |name| + (if NeedsSeparator(dir) then 1 else 0)
    ensures p[..|dir|] == dir && p[|p| - |name|..] == name
    ensures NeedsSeparator(dir) ==> p[|dir|] == SEPARATOR
  {
    if NeedsSeparator(dir) then dir + [SEPARATOR] + name else dir + name
  }

  /** The key `folder.join("manifest")` every pipeline is given. */
  function ManifestKey(folder: string): string {
    Join(folder, "manifest")
  }

  /** The file the JSON file backend reads and writes for a key: the key plus the format's extension. */
  function StorageFile(key: string): string {
    key + ".json"
  }

  /**
   * The existence check `folder.join("manifest.json")` that gates "load" looks at
   * exactly the file a save under `ManifestKey(folder)` writes.
   */
  lemma ExistenceCheckIsStoredFile(folder: string)
    ensures StorageFile(ManifestKey(folder)) == Join(folder, "manifest.json")
  {
  }

  /**
   * Keys collide: a folder and the same folder written with a trailing separator
   * name one document, so a save under either overwrites the other.
   */
  lemma TrailingSeparatorSameKey(folder: string)
    requires NeedsSeparator(folder)
    ensures ManifestKey(folder + [SEPARATOR]) == ManifestKey(folder)
  {
  }
}
