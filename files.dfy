/** The local file system, reduced to what the token caches use: a map from path to document. */
module Files {
  import opened Wrappers
  import opened PyText
  import opened PyValues

  /** A file's content: text that `json.load` rejects (an empty, truncated or hand-edited
      file), or a decoded JSON document. */
  datatype Document = Unparseable | Parsed(json: Json)

  class FileSystem {
    var files: map<string, Document>

    constructor (files: map<string, Document>)
      ensures this.files == files
    {
      this.files := files;
    }

    /** The document at `path`, or `None` when `path.exists()` is false. */
    function Lookup(path: string): (d: Option<Document>)
      reads this
      ensures d.Some? <==> path in files
      ensures d.Some? ==> d.value == files[path]
    {
      if path in files then Some(files[path]) else None
    }
  }

  /** The cache file name both caches derive from a server: the server with every `/`
      removed, then `.json`. */
  function CacheFileName(server: string): string {
    RemoveAll(server, '/') + ".json"
  }

  /** The derived name is a single path component ending in `.json`. */
  lemma CacheFileNameShape(server: string)
    ensures '/' !in CacheFileName(server)
    ensures var name := CacheFileName(server); |name| >= 5 && name[|name| - 5..] == ".json"
  {
    RemoveAllDrops(server, '/');
  }

  /** `Path(dir) / name` for a plain file name. */
  function JoinPath(dir: string, name: string): (p: string)
    ensures |name| <= |p| && p[|p| - |name|..] == name
    ensures dir == "." ==> p == name
  {
    if dir == "." || dir == "" then name
    else if dir[|dir| - 1] == '/' then dir + name
    else dir + "/" + name
  }

  /** Example: the cache of server `test` in the working directory is `test.json`. */
  lemma TestServerPath()
    ensures JoinPath(".", CacheFileName("test")) == "test.json"
  {
  }

  /** Removing the slashes of `scheme//rest` joins the scheme to the rest. */
  lemma RemoveSchemeSlashes(scheme: string, rest: string)
    requires '/' !in scheme && '/' !in rest
    ensures RemoveAll(scheme + "//" + rest, '/') == scheme + rest
  {
    var slashes := "//";
    assert slashes[1..] == "/" && ("/")[1..] == [];
    assert RemoveAll("/", '/') == [];
    assert RemoveAll(slashes, '/') == [];
    RemoveAllDrops(scheme, '/');
    RemoveAllDrops(rest, '/');
    RemoveAllConcat(scheme + slashes, rest, '/');
    RemoveAllConcat(scheme, slashes, '/');
  }

  /** Only `/` is removed: for a server `scheme//host` the name joins scheme and host, so the
      scheme's `:` (and a port's `:`) stay in the file name. */
  lemma CacheFileNameOfUrl(scheme: string, host: string)
    requires '/' !in scheme && '/' !in host
    ensures CacheFileName(scheme + "//" + host) == scheme + host + ".json"
  {
    RemoveSchemeSlashes(scheme, host);
  }

  /** Servers that differ only in their slashes share one cache file. */
  lemma {:induction false} CacheFileNameIgnoresSlashes(a: string, b: string)
    ensures CacheFileName(a + "/" + b) == CacheFileName(a + b)
  {
    RemoveAllConcat(a + "/", b, '/');
    RemoveAllConcat(a, "/", '/');
    RemoveAllConcat(a, b, '/');
    assert ("/")[1..] == [];
    assert RemoveAll("/", '/') == [];
  }
}
