/** The SDK's configuration factory (`config.ConfigFactory`): creators filed by file
    extension, and configurations created by extension or by file path. A creator is an
    identity; the configuration it builds is given by `make`. The lock and the process-wide
    instance are not modelled. */
module ConfigFactory {
  import opened Wrappers
  import opened StrUtil
  import MapUtil
  import opened ConfigManager

  /** A creator function (`ConfigCreator`). */
  type CreatorId = nat

  /** `filepath.Ext` with '/' as the separator: the suffix from the last '.' of the last path
      element, or "" when that element has no '.'. */
  function Ext(path: string): (r: string)
    ensures r == "" || (r[0] == '.' && HasSuffix(path, r) && '/' !in r && '.' !in r[1..])
    ensures r == "" ==> forall i :: 0 <= i < |path| && '/' !in path[i..] ==> path[i] != '.'
    decreases |path|
  {
    if path == [] || path[|path| - 1] == '/' then ""
    else if path[|path| - 1] == '.' then "."
    else
      var e := Ext(path[..|path| - 1]);
      if e == "" then "" else e + [path[|path| - 1]]
  }

  /** An extension with a leading '.' added when it lacks one. */
  function Dotted(ext: string): (r: string)
    ensures HasPrefix(r, ".")
    ensures HasPrefix(ext, ".") ==> r == ext
  {
    if HasPrefix(ext, ".") then ext else "." + ext
  }

  /** The key `CreateByExt` looks up. */
  function CreateKey(fileExt: string): string {
    Lower(Dotted(fileExt))
  }

  function NoCreator(ext: string): string {
    "no config creator registered for extension " + ext
  }

  function AlreadyRegistered(ext: string): string {
    "creator for extension " + ext + " already registered"
  }

  /** `CreateByExt` on a snapshot of the creators. */
  function CreateByExtIn(creators: map<string, CreatorId>, fileExt: string, make: CreatorId -> ConfigId): (r: Result<ConfigId>)
    ensures fileExt == "" ==> r == Err("fileExt is empty")
    ensures fileExt != "" ==> (r.Ok? <==> CreateKey(fileExt) in creators)
    ensures fileExt != "" && r.Ok? ==> r.value == make(creators[CreateKey(fileExt)])
    ensures fileExt != "" && r.Err? ==> r.msg == NoCreator(CreateKey(fileExt))
  {
    if fileExt == "" then Err("fileExt is empty")
    else
      var ext := CreateKey(fileExt);
      if ext in creators then Ok(make(creators[ext])) else Err(NoCreator(ext))
  }

  /** `CreateByFilePath` on a snapshot of the creators. */
  function CreateByFilePathIn(creators: map<string, CreatorId>, filePath: string, make: CreatorId -> ConfigId): (r: Result<ConfigId>)
    ensures Ext(filePath) == "" ==> r == Err("file " + filePath + " has no extension")
    ensures Ext(filePath) != "" ==> (r.Ok? <==> Lower(Ext(filePath)) in creators)
  {
    var ext := Lower(Ext(filePath));
    if ext == "" then Err("file " + filePath + " has no extension")
    else if ext in creators then Ok(make(creators[ext]))
    else Err(NoCreator(ext))
  }

  /** Creating by path and creating by the path's extension agree: both look up the
      lower-cased extension. */
  lemma CreateByPathIsByExt(creators: map<string, CreatorId>, filePath: string, make: CreatorId -> ConfigId)
    requires Ext(filePath) != ""
    ensures CreateByFilePathIn(creators, filePath, make) == CreateByExtIn(creators, Ext(filePath), make)
  {
    assert Dotted(Ext(filePath)) == Ext(filePath);
  }

  /** `CreateByExt` only ever looks up lower-case keys, so a creator registered under an
      extension with an upper-case letter (which `Register` keeps as given) is never found
      by it. */
  lemma UpperCaseKeyUnreachable(creators: map<string, CreatorId>, key: string, fileExt: string, make: CreatorId -> ConfigId)
    requires exists i :: 0 <= i < |key| && 'A' <= key[i] <= 'Z'
    ensures CreateKey(fileExt) != key
  {
  }

  /** A creator registered under a lower-case extension is found by `CreateByExt`, with or
      without the leading '.'. */
  lemma RegisterThenCreate(creators: map<string, CreatorId>, ext: string, c: CreatorId, make: CreatorId -> ConfigId)
    requires ext != "" && Lower(ext) == ext
    ensures CreateByExtIn(creators[Dotted(ext) := c], ext, make) == Ok(make(c))
    ensures CreateByExtIn(creators[Dotted(ext) := c], Dotted(ext), make) == Ok(make(c))
  {
    assert Lower(Dotted(ext)) == Dotted(ext);
  }

  class ConfigFactory {
    var creators: map<string, CreatorId>

    /** The factory `GetConfigFactory` creates: no creators. */
    constructor ()
      ensures creators == map[]
    {
      creators := map[];
    }

    /** `Register`: a nil creator is refused; the extension gets a leading '.' (its case is
        kept) and may be registered once. */
    method Register(ext: string, creator: Option<CreatorId>) returns (r: Outcome)
      modifies this
      ensures creator.None? ==> r == Fail("creator function cannot be nil") && creators == old(creators)
      ensures creator.Some? && Dotted(ext) in old(creators) ==>
        r == Fail(AlreadyRegistered(Dotted(ext))) && creators == old(creators)
      ensures creator.Some? && Dotted(ext) !in old(creators) ==>
        r == Pass && creators == old(creators)[Dotted(ext) := creator.value]
    {
      if creator.None? {
        return Fail("creator function cannot be nil");
      }
      var key := Dotted(ext);
      if key in creators {
        return Fail(AlreadyRegistered(key));
      }
      creators := creators[key := creator.value];
      return Pass;
    }

    /** `RegisterByFilePath`: the key is the path's lower-cased extension, which is "" for a
        path without one. */
    method RegisterByFilePath(filePath: string, creator: Option<CreatorId>) returns (r: Outcome)
      modifies this
      ensures creator.None? ==> r == Fail("creator function cannot be nil") && creators == old(creators)
      ensures creator.Some? && Lower(Ext(filePath)) in old(creators) ==>
        r == Fail(AlreadyRegistered(Lower(Ext(filePath)))) && creators == old(creators)
      ensures creator.Some? && Lower(Ext(filePath)) !in old(creators) ==>
        r == Pass && creators == old(creators)[Lower(Ext(filePath)) := creator.value]
    {
      if creator.None? {
        return Fail("creator function cannot be nil");
      }
      var key := Lower(Ext(filePath));
      if key in creators {
        return Fail(AlreadyRegistered(key));
      }
      creators := creators[key := creator.value];
      return Pass;
    }

    /** `CreateByFilePath`. */
    function CreateByFilePath(filePath: string, make: CreatorId -> ConfigId): Result<ConfigId>
      reads this
    {
      CreateByFilePathIn(creators, filePath, make)
    }

    /** `CreateByExt`. */
    function CreateByExt(fileExt: string, make: CreatorId -> ConfigId): Result<ConfigId>
      reads this
    {
      CreateByExtIn(creators, fileExt, make)
    }

    /** `Unregister`: the extension gets a leading '.' but is not lower-cased. */
    method Unregister(ext: string)
      modifies this
      ensures creators == old(creators) - {Dotted(ext)}
    {
      creators := creators - {Dotted(ext)};
    }

    /** `GetSupportedExtensions`: every registered key exactly once. */
    method GetSupportedExtensions() returns (exts: seq<string>)
      ensures forall e :: e in exts <==> e in creators
      ensures MapUtil.Distinct(exts)
    {
      exts := MapUtil.Keys(creators);
    }
  }
}
