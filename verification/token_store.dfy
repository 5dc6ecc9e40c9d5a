/**
 * The token store itself (class TokenStore of index.js) over an abstract
 * disk. Construction resolves the paths and may create the storage
 * directory; `Get`, `Store` and `Destroy` read, write and remove the one
 * token file. The JSON codec is passed in as a pair of functions.
 */
module TokenStores {
  import opened Wrappers
  import opened Text
  import opened JsValues
  import opened TokenPaths

  /** Why construction fails: the directory is missing and may not be created. */
  datatype OpenError = DirectoryNotFound(dir: string) {
    function Message(): string {
      dir + " does not exist"
    }
  }

  /** Why `get` fails. */
  datatype GetError =
    | TokenNotStored        // the token file does not exist
    | InvalidJson           // ext is "json" and the file does not parse
    | RefreshNotJson        // the has_refresh branch: the re-read text does not parse (uncaught SyntaxError)
    | MergeTypeError        // the has_refresh branch: Object.assign on null (uncaught TypeError)
  {
    function Message(): string {
      match this
      case TokenNotStored => "token has not been stored"
      case InvalidJson => "token is not stored as valid json"
      case RefreshNotJson => "SyntaxError"
      case MergeTypeError => "TypeError"
    }
  }

  /** Why `store` fails. */
  datatype StoreError =
    | TokenRequired         // a falsy token
    | TokenMustBeString     // a non-string token while ext is not "json"
    | RefreshTokenUnbound   // index.js:87 reads the unbound name refresh_token (ReferenceError)
  {
    function Message(): string {
      match this
      case TokenRequired => "token must be provided"
      case TokenMustBeString => "token must be a string"
      case RefreshTokenUnbound => "refresh_token is not defined"
    }
  }

  /**
   * The part of the `fs` module the store uses, over an abstract disk: the
   * set of existing directories and the contents of the existing files.
   */
  class FileSystem {
    var dirs: set<string>
    var files: map<string, string>

    constructor (dirs: set<string>, files: map<string, string>)
      ensures this.dirs == dirs && this.files == files
    {
      this.dirs := dirs;
      this.files := files;
    }

    /** `existsSync`: true for a directory and for a file that can be read. */
    predicate Exists(p: string)
      reads this
      ensures p in dirs ==> Exists(p)
      ensures Read(p).Some? ==> Exists(p)
      ensures Exists(p) ==> p in dirs || Read(p).Some?
    {
      p in dirs || p in files
    }

    /** `readFileSync`: None is ENOENT. */
    function Read(p: string): (r: Option<string>)
      reads this
      ensures r.None? <==> p !in files
      ensures r.Some? ==> r.value == files[p]
    {
      if p in files then Some(files[p]) else None
    }

    /** `mkdirSync`: adds one directory. */
    method Mkdir(p: string)
      modifies this
      ensures dirs == old(dirs) + {p} && files == old(files)
    {
      dirs := dirs + {p};
    }

    /** `writeFileSync`: creates or truncates and overwrites one file. */
    method Write(p: string, text: string)
      modifies this
      ensures files == old(files)[p := text] && dirs == old(dirs)
    {
      files := files[p := text];
    }

    /** `unlinkSync`: removes one file; false is ENOENT. */
    method Unlink(p: string) returns (ok: bool)
      modifies this
      ensures ok <==> p in old(files)
      ensures files == old(files) - {p} && dirs == old(dirs)
    {
      ok := p in files;
      if ok {
        files := files - {p};
      }
    }
  }

  /**
   * What `store` writes for `token`, or why it throws before writing:
   * a non-empty string is written as it is, any other truthy value is
   * serialised when ext is "json"; the three failures leave the disk alone.
   */
  function Serialize(token: Value, ext: string, stringify: Value -> string): (r: Result<string, StoreError>)
    ensures r == Failure(TokenRequired) <==> !Truthy(token)
    ensures r == Failure(TokenMustBeString) <==> Truthy(token) && !token.Str? && ext != "json"
    ensures r == Failure(RefreshTokenUnbound)
        <==> Truthy(token) && !token.Str? && ext == "json" && Truthy(RefreshTokenOf(token))
    ensures r.Success? && token.Str? ==> r.value == token.s && r.value != ""
    ensures r.Success? && !token.Str? ==> ext == "json" && r.value == stringify(token)
    ensures !Truthy(token) ==> r.error.Message() == "token must be provided"
    ensures r == Failure(TokenMustBeString) ==> r.error.Message() == "token must be a string"
  {
    if !Truthy(token) then Failure(TokenRequired)
    else if token.Str? then Success(token.s)
    else if ext != "json" then Failure(TokenMustBeString)
    else if Truthy(RefreshTokenOf(token)) then Failure(RefreshTokenUnbound)
    else Success(stringify(token))
  }

  /**
   * The file table after `store(token)`: the token file holds exactly the
   * serialised token, and every other file is as it was; a failed store
   * changes nothing.
   */
  function AfterStore(files: map<string, string>, path: string, token: Value, ext: string, stringify: Value -> string)
    : (r: map<string, string>)
    ensures Serialize(token, ext, stringify).Failure? ==> r == files
    ensures Serialize(token, ext, stringify).Success? ==> path in r && r[path] == Serialize(token, ext, stringify).value
    ensures r.Keys - {path} == files.Keys - {path}
    ensures forall q :: q in files && q != path ==> q in r && r[q] == files[q]
  {
    match Serialize(token, ext, stringify)
    case Failure(_) => files
    case Success(text) => files[path := text]
  }

  /**
   * The outcome of `get` on a file table: a missing file is TokenNotStored;
   * with ext "json" unparsable text is InvalidJson and parsable text is
   * returned parsed; with any other ext the text is returned as it is. The
   * has_refresh branch parses the token file a second time and merges it in.
   */
  function GetResult(files: map<string, string>, path: string, ext: string, hasRefresh: bool,
                     parse: string -> Option<Value>): (r: Result<Value, GetError>)
    ensures path !in files ==> r == Failure(TokenNotStored)
    ensures path in files && ext == "json" && parse(files[path]).None? ==> r == Failure(InvalidJson)
    ensures path in files && ext == "json" && parse(files[path]).Some? && !hasRefresh
        ==> r == Success(parse(files[path]).value)
    ensures path in files && ext != "json" && !hasRefresh ==> r == Success(Str(files[path]))
    ensures r.Failure? && !hasRefresh ==> r.error == TokenNotStored || r.error == InvalidJson
    ensures r == Failure(TokenNotStored) ==> r.error.Message() == "token has not been stored"
    ensures r == Failure(InvalidJson) ==> r.error.Message() == "token is not stored as valid json"
  {
    if path !in files then Failure(TokenNotStored)
    else
      var text := files[path];
      var contents :=
        if ext == "json" then parse(text).ToResult(InvalidJson) else Success(Str(text));
      if contents.Failure? || !hasRefresh then contents
      else match parse(text)
        case None => Failure(RefreshNotJson)
        case Some(refresh) =>
          Assign(contents.value, refresh).ToResult(MergeTypeError)
  }

  class TokenStore {
    /** `this.opts`: the options after defaults. */
    const opts: Config
    /** `this.path`: the token file, fixed at construction. */
    const path: string
    /** `this.path_refresh`: the refresh file, fixed at construction. */
    const pathRefresh: string
    /** `this.has_refresh`. */
    var hasRefresh: bool

    /** The final assignments of the source's constructor. */
    constructor (opts: Config, dir: string, name: string)
      ensures this.opts == opts && path == dir + "/" + name
      ensures pathRefresh == RefreshPath(path) && !hasRefresh
    {
      this.opts := opts;
      path := dir + "/" + name;
      pathRefresh := RefreshPath(dir + "/" + name);
      hasRefresh := false;
    }

    /**
     * `new TokenStore(options)`: fails exactly when the expanded directory
     * does not exist and mkdir is off, creating nothing; otherwise the
     * directory exists afterwards (created only when it was missing), no
     * file is touched, and the store's paths are the derived ones.
     */
    static method Create(options: Options, home: string, md5: string -> string, fs: FileSystem)
      returns (r: Result<TokenStore, OpenError>)
      modifies fs
      ensures fs.files == old(fs.files)
      ensures var c := WithDefaults(options);
        && (r.Failure? <==> !old(fs.Exists(StorageDir(c, home))) && !c.mkdir)
        && (r.Failure? ==> r.error == DirectoryNotFound(StorageDir(c, home)) && fs.dirs == old(fs.dirs))
        && (r.Failure? ==> r.error.Message() == StorageDir(c, home) + " does not exist")
        && (r.Success? ==> fs.Exists(StorageDir(c, home)))
        && (r.Success? ==> fs.dirs == old(fs.dirs) + (if old(fs.Exists(StorageDir(c, home))) then {} else {StorageDir(c, home)}))
      ensures r.Success? ==> fresh(r.value) && !r.value.hasRefresh
      ensures r.Success? ==> r.value.opts == WithDefaults(options)
      ensures r.Success? ==> r.value.path == TokenPath(WithDefaults(options), home, md5)
      ensures r.Success? ==> r.value.pathRefresh == RefreshPath(r.value.path)
    {
      var opts := WithDefaults(options);
      var dir := ExpandHome(opts.path, home);
      var present := fs.Exists(dir);
      if !present {
        if opts.mkdir {
          fs.Mkdir(dir);
        } else {
          return Failure(DirectoryNotFound(dir));
        }
      }
      var name := FileName(opts.filename, opts.signature, opts.ext, md5);
      var store := new TokenStore(opts, dir, name);
      return Success(store);
    }

    /** `get()`: reads the token file and changes nothing. */
    method Get(fs: FileSystem, parse: string -> Option<Value>) returns (r: Result<Value, GetError>)
      ensures r == GetResult(fs.files, path, opts.ext, hasRefresh, parse)
    {
      var read := fs.Read(path);
      if read.None? {
        return Failure(TokenNotStored);
      }
      var contents := Str(read.value);
      if opts.ext == "json" {
        var parsed := parse(read.value);
        if parsed.None? {
          return Failure(InvalidJson);
        }
        contents := parsed.value;
      }
      if hasRefresh {
        // the source reads this.path here, not this.path_refresh
        var again := fs.Read(path).value;
        var refresh := parse(again);
        if refresh.None? {
          return Failure(RefreshNotJson);
        }
        var merged := Assign(contents, refresh.value);
        if merged.None? {
          return Failure(MergeTypeError);
        }
        contents := merged.value;
      }
      return Success(contents);
    }

    /**
     * `store(token)`: writes the serialised token to the token file, or
     * fails before any write. The source would set has_refresh after the
     * line that reads the unbound name, so the flag never changes.
     */
    method Store(fs: FileSystem, token: Value, stringify: Value -> string) returns (r: Outcome<StoreError>)
      modifies fs, this`hasRefresh
      ensures r.Pass? <==> Serialize(token, opts.ext, stringify).Success?
      ensures r.Fail? ==> r.error == Serialize(token, opts.ext, stringify).error
      ensures fs.files == AfterStore(old(fs.files), path, token, opts.ext, stringify)
      ensures fs.dirs == old(fs.dirs)
      ensures hasRefresh == old(hasRefresh)
    {
      if !Truthy(token) {
        return Fail(TokenRequired);
      }
      var text: string;
      if !token.Str? {
        if opts.ext == "json" {
          if Truthy(RefreshTokenOf(token)) {
            // building { refresh_token } throws: neither the refresh file nor the flag is written
            return Fail(RefreshTokenUnbound);
          }
          text := stringify(token);
        } else {
          return Fail(TokenMustBeString);
        }
      } else {
        text := token.s;
      }
      fs.Write(path, text);
      return Pass;
    }

    /** `destroy()`: removes the token file; fails (ENOENT) when it is absent. */
    method Destroy(fs: FileSystem) returns (ok: bool)
      modifies fs
      ensures ok <==> path in old(fs.files)
      ensures fs.files == old(fs.files) - {path}
      ensures fs.dirs == old(fs.dirs)
    {
      ok := fs.Unlink(path);
    }
  }

  /**
   * Whatever the ext, storing a non-empty string leaves exactly that text in
   * the token file: strings are never serialised or validated.
   */
  lemma StoreStringWritesText(files: map<string, string>, path: string, ext: string, s: string,
                              stringify: Value -> string)
    requires s != ""
    ensures path in AfterStore(files, path, Str(s), ext, stringify)
    ensures AfterStore(files, path, Str(s), ext, stringify)[path] == s
  {
  }

  /** A non-empty string stored with a non-"json" ext is read back unchanged. */
  lemma StoreThenGetText(files: map<string, string>, path: string, ext: string, s: string,
                         parse: string -> Option<Value>, stringify: Value -> string)
    requires s != "" && ext != "json"
    ensures GetResult(AfterStore(files, path, Str(s), ext, stringify), path, ext, false, parse) == Success(Str(s))
  {
  }

  /**
   * With ext "json", a stored structure without a truthy refresh_token is
   * read back as itself whenever the codec round-trips it.
   */
  lemma StoreThenGetJson(files: map<string, string>, path: string, token: Value,
                         parse: string -> Option<Value>, stringify: Value -> string)
    requires Truthy(token) && !token.Str? && !Truthy(RefreshTokenOf(token))
    requires parse(stringify(token)) == Some(token)
    ensures GetResult(AfterStore(files, path, token, "json", stringify), path, "json", false, parse) == Success(token)
  {
  }

  /** A non-"json" store accepts nothing but a non-empty string. */
  lemma NonJsonStoresOnlyStrings(token: Value, ext: string, stringify: Value -> string)
    requires ext != "json"
    ensures Serialize(token, ext, stringify).Success? <==> token.Str? && token.s != ""
  {
  }

  /** Storing the same token twice leaves the same files as storing it once. */
  lemma StoreIdempotent(files: map<string, string>, path: string, token: Value, ext: string,
                        stringify: Value -> string)
    ensures var once := AfterStore(files, path, token, ext, stringify);
      AfterStore(once, path, token, ext, stringify) == once
  {
  }

  /** After the token file is removed, `get` reports that no token has been stored. */
  lemma DestroyThenGet(files: map<string, string>, path: string, ext: string, hasRefresh: bool,
                       parse: string -> Option<Value>)
    ensures GetResult(files - {path}, path, ext, hasRefresh, parse) == Failure(TokenNotStored)
  {
  }

  /**
   * The has_refresh branch never consults the refresh file: `get` gives the
   * same result whatever that file holds.
   */
  lemma GetIgnoresRefreshFile(files: map<string, string>, path: string, pathRefresh: string, text: string,
                              ext: string, hasRefresh: bool, parse: string -> Option<Value>)
    requires pathRefresh != path
    ensures GetResult(files[pathRefresh := text], path, ext, hasRefresh, parse)
         == GetResult(files, path, ext, hasRefresh, parse)
  {
  }

  /**
   * For a JSON object the has_refresh branch merges the token file into
   * itself, so `get` returns the stored object unchanged.
   */
  lemma RefreshBranchReturnsPrimary(files: map<string, string>, path: string,
                                    parse: string -> Option<Value>)
    requires path in files && parse(files[path]).Some? && parse(files[path]).value.Obj?
    ensures GetResult(files, path, "json", true, parse) == Success(parse(files[path]).value)
  {
    var fields := parse(files[path]).value.fields;
    assert fields + fields == fields;
  }
}
